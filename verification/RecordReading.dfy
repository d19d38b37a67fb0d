/**
  Which texts are read, and as what: the reader takes exactly the texts whose lines, leaving out comments, empty
  lines and carriage returns, are the header and then the records written out; numbers exactly as numerals.
 */
module RecordReading {
  import opened Numerals
  import opened Options
  import opened RecordText

  // ---- lines and fields, given by writing them out ----

  /** Cutting a line at its tabs gives the list of fields without tabs that it is the writing of. */
  lemma {:induction false} SplitIs(line: string)
    ensures Split(line) != [] && Join(Split(line)) == line && Without(Split(line), '\t')
    decreases |line|
  {
    var n := Find(line, '\t');
    SplitStep(line, n);
    if n < |line| {
      var fields := Split(line[n + 1..]);
      SplitIs(line[n + 1..]);
      Cut(line, n, "\t");
      assert ([line[..n]] + fields)[1..] == fields;
      assert Join([line[..n]] + fields) == line[..n] + ("\t" + Join(fields));
    }
  }

  ghost predicate Without(pieces: seq<string>, c: char) {
    forall k :: 0 <= k < |pieces| ==> c !in pieces[k]
  }

  lemma Cut(s: string, n: nat, c: string)
    requires n < |s| && c == [s[n]]
    ensures s == s[..n] + (c + s[n + 1..])
  {
  }

  /** The lines of a text hold no line ends, and writing them out gives the text back, with its last line ended. */
  lemma {:induction false} LinesAre(text: string)
    ensures Without(Lines(text), '\n') && Unlines(Lines(text)) == Ended(text)
    decreases |text|
  {
    if text != [] {
      var n := Find(text, '\n');
      LinesStep(text, n);
      var rest := if n == |text| then "" else text[n + 1..];
      var lines := Lines(rest);
      LinesAre(rest);
      assert ([text[..n]] + lines)[1..] == lines;
      assert Unlines([text[..n]] + lines) == text[..n] + ("\n" + Unlines(lines));
      if n == |text| {
        LastEnded(text);
      } else {
        Cut(text, n, "\n");
        EndedRest(text[..n], rest, text);
      }
    }
  }

  lemma LastEnded(text: string)
    requires text != [] && '\n' !in text
    ensures Ended(text) == text[..|text|] + ("\n" + Ended(""))
  {
  }

  function Ended(text: string): string {
    if text == [] || text[|text| - 1] == '\n' then text else text + "\n"
  }

  lemma EndedRest(line: string, rest: string, text: string)
    requires text == line + ("\n" + rest)
    ensures Ended(text) == line + ("\n" + Ended(rest))
  {
    if rest != [] {
      assert text[|text| - 1] == rest[|rest| - 1];
      assert (line + ("\n" + rest)) + "\n" == line + ("\n" + (rest + "\n"));
    }
  }

  // ---- the reader ----

  /** The lines that count, without their carriage returns. */
  function Kept(lines: seq<string>): seq<string> {
    if lines == [] then []
    else if Skipped(Trimmed(lines[0])) then Kept(lines[1..])
    else [Trimmed(lines[0])] + Kept(lines[1..])
  }

  /** The lines are the records written out. */
  ghost predicate Spell(lines: seq<string>, rs: seq<Record>) {
    if rs == [] then lines == []
    else lines != [] && rs[0] != [] && FieldsFine(rs[0]) && Join(rs[0]) == lines[0] && Spell(lines[1..], rs[1..])
  }

  lemma SplitOnly(line: string, r: Record)
    ensures FieldsFine(Split(line)) && r == Split(line) <==> r != [] && FieldsFine(r) && Join(r) == line
  {
    SplitIs(line);
    if r != [] && FieldsFine(r) && Join(r) == line {
      SplitJoin(r);
    }
  }

  lemma SpellStep(line: string, lines: seq<string>, rs: seq<Record>)
    ensures Spell([line] + lines, rs) <==>
            rs != [] && FieldsFine(Split(line)) && rs[0] == Split(line) && Spell(lines, rs[1..])
  {
    if rs != [] {
      SplitOnly(line, rs[0]);
      assert ([line] + lines)[1..] == lines;
    }
  }

  lemma AppendFirst(done: seq<Record>, r: Record, all: seq<Record>)
    ensures done + [r] <= all <==> done <= all && |done| < |all| && all[|done|] == r
    ensures done + [r] <= all ==> all[|done|..][1..] == all[|done| + 1..] && all[|done|..][0] == r
  {
    if done <= all && |done| < |all| && all[|done|] == r {
      assert all[..|done| + 1] == all[..|done|] + [r];
    }
    if done + [r] <= all {
      assert all[..|done| + 1] == done + [r];
      assert all[..|done|] == (done + [r])[..|done|];
    }
  }

  /** After the header every line that counts is a record. */
  lemma {:induction false} SeenReads(lines: seq<string>, header: string, done: seq<Record>, all: seq<Record>)
    ensures ReadLines(lines, header, true, done) == Some(all) <==> done <= all && Spell(Kept(lines), all[|done|..])
  {
    if lines == [] {
      assert done <= all && all[|done|..] == [] <==> done == all;
    } else {
      var line := Trimmed(lines[0]);
      if Skipped(line) {
        SeenReads(lines[1..], header, done, all);
        assert Kept(lines) == Kept(lines[1..]);
      } else {
        SeenReads(lines[1..], header, done + [Split(line)], all);
        AppendFirst(done, Split(line), all);
        if done <= all {
          SpellStep(line, Kept(lines[1..]), all[|done|..]);
        }
      }
    }
  }

  /** A text is read exactly when its lines that count are the header and then the records written out. */
  lemma ReadIs(text: string, header: string, rs: seq<Record>)
    ensures Read(text, header) == Some(rs) <==>
            var lines := Kept(Lines(text)); lines != [] && lines[0] == header && Spell(lines[1..], rs)
  {
    HeaderReads(Lines(text), header, rs);
  }

  lemma {:induction false} HeaderReads(lines: seq<string>, header: string, rs: seq<Record>)
    ensures ReadLines(lines, header, false, []) == Some(rs) <==>
            Kept(lines) != [] && Kept(lines)[0] == header && Spell(Kept(lines)[1..], rs)
  {
    if lines != [] {
      var line := Trimmed(lines[0]);
      if Skipped(line) {
        HeaderReads(lines[1..], header, rs);
        assert Kept(lines) == Kept(lines[1..]);
      } else {
        SeenReads(lines[1..], header, [], rs);
        assert rs[0..] == rs;
        assert Kept(lines)[1..] == Kept(lines[1..]);
      }
    }
  }

  /** So comments and empty lines may stand anywhere. */
  lemma CommentsIgnored(before: seq<string>, comment: string, after: seq<string>, header: string, rs: seq<Record>)
    requires comment == "" || comment == "\r" || comment[0] == '#'
    ensures ReadLines(before + [comment] + after, header, false, []) == Some(rs) <==>
            ReadLines(before + after, header, false, []) == Some(rs)
  {
    HeaderReads(before + [comment] + after, header, rs);
    HeaderReads(before + after, header, rs);
    KeptAppend(before + [comment], after);
    KeptAppend(before, [comment]);
    KeptAppend(before, after);
    assert Kept([comment]) == [];
    assert Kept(before) + [] == Kept(before);
    assert Kept(before + [comment] + after) == Kept(before + after);
  }

  /** And any line may end in a carriage return. */
  lemma ReturnsIgnored(before: seq<string>, line: string, after: seq<string>, header: string, rs: seq<Record>)
    requires line == "" || line[|line| - 1] != '\r'
    ensures ReadLines(before + [line + "\r"] + after, header, false, []) == Some(rs) <==>
            ReadLines(before + [line] + after, header, false, []) == Some(rs)
  {
    HeaderReads(before + [line + "\r"] + after, header, rs);
    HeaderReads(before + [line] + after, header, rs);
    KeptAppend(before + [line + "\r"], after);
    KeptAppend(before + [line], after);
    KeptAppend(before, [line + "\r"]);
    KeptAppend(before, [line]);
    assert Trimmed(line + "\r") == line == Trimmed(line);
    assert Kept([line + "\r"]) == Kept([line]);
  }

  lemma {:induction false} KeptAppend(a: seq<string>, b: seq<string>)
    ensures Kept(a + b) == Kept(a) + Kept(b)
  {
    if a == [] {
      assert a + b == b;
    } else {
      KeptAppend(a[1..], b);
      assert (a + b)[1..] == a[1..] + b && (a + b)[0] == a[0];
    }
  }

  // ---- numbers ----

  /** The number as it is written, perhaps with zeros before it. */
  ghost predicate Numeral(s: string, n: nat) {
    exists zeros: nat :: zeros <= |s| && s[zeros..] == Decimal(n) && forall i :: 0 <= i < zeros ==> s[i] == '0'
  }

  lemma {:induction false} DigitsRead(s: string) returns (zeros: nat)
    requires s != [] && AllDigits(s)
    ensures zeros <= |s| && s[zeros..] == Decimal(Value(s)) && forall i :: 0 <= i < zeros ==> s[i] == '0'
  {
    var front, last := s[..|s| - 1], s[|s| - 1];
    assert Digit(DigitValue(last)) == last;
    if front == [] {
      assert Value(s) == DigitValue(last) && s == [last];
      zeros := 0;
    } else {
      zeros := DigitsRead(front);
      var n := Value(front);
      assert Value(s) / 10 == n && Value(s) % 10 == DigitValue(last);
      if n == 0 {
        assert front[zeros..] == "0" && front[zeros] == front[zeros..][0];
        assert |front| == zeros + 1;
        zeros := |s| - 1;
        assert s[zeros..] == [last];
      } else {
        assert s[zeros..] == front[zeros..] + [last];
      }
    }
  }

  lemma {:induction false} ZerosRead(s: string, zeros: nat)
    requires zeros <= |s| && AllDigits(s) && forall i :: 0 <= i < zeros ==> s[i] == '0'
    ensures Value(s) == Value(s[zeros..])
    decreases |s|
  {
    if zeros == |s| {
      if s != [] {
        ZerosRead(s[..|s| - 1], zeros - 1);
        assert s[..|s| - 1][zeros - 1..] == [] && s[zeros..] == [];
      } else {
        assert s[zeros..] == s;
      }
    } else {
      var front := s[..|s| - 1];
      ZerosRead(front, zeros);
      assert s[zeros..][..|s| - zeros - 1] == front[zeros..];
    }
  }

  /** A decimal number is read off its numerals, up to the largest that fits, and off nothing else. */
  lemma NumeralReads(s: string, max: nat, n: nat)
    ensures ParseUnsigned(s, max) == Some(n) <==> n <= max && Numeral(s, n)
  {
    if s != [] && AllDigits(s) {
      var zeros := DigitsRead(s);
    }
    if Numeral(s, n) {
      var zeros: nat :| zeros <= |s| && s[zeros..] == Decimal(n) && forall i :: 0 <= i < zeros ==> s[i] == '0';
      forall i | 0 <= i < |s|
        ensures IsDigit(s[i])
      {
        assert i >= zeros ==> s[i] == s[zeros..][i - zeros];
      }
      ZerosRead(s, zeros);
      DecimalValue(n);
    }
  }

  function Lowered(s: string): (t: string)
    ensures |t| == |s| && forall i :: 0 <= i < |s| ==> t[i] == if 'A' <= s[i] <= 'F' then s[i] - 'A' + 'a' else s[i]
  {
    seq(|s|, i requires 0 <= i < |s| => if 'A' <= s[i] <= 'F' then s[i] - 'A' + 'a' else s[i])
  }

  lemma {:induction false} HexDigitsRead(s: string)
    requires AllHex(s)
    ensures Lowered(s) == Hex(HexValue(s), |s|) && HexValue(s) < Power16(|s|)
  {
    if s != [] {
      var front, last := s[..|s| - 1], s[|s| - 1];
      HexDigitsRead(front);
      assert HexValue(s) / 16 == HexValue(front) && HexValue(s) % 16 == HexDigitValue(last);
      assert Lowered(s) == Lowered(front) + [LowerHex(HexDigitValue(last))];
    }
  }

  lemma LoweredHex(s: string)
    requires AllHex(Lowered(s))
    ensures AllHex(s)
  {
    forall i | 0 <= i < |s|
      ensures HexDigitValue(s[i]) >= 0
    {
      assert HexDigitValue(Lowered(s)[i]) >= 0;
    }
  }

  /** A fingerprint is read off its sixteen digits, in either case, and off nothing else. */
  lemma HexNumeralReads(s: string, n: nat)
    requires n <= MAX64
    ensures ParseHex64(s) == Some(n) <==> |s| == 16 && Lowered(s) == Hex64(n)
  {
    if |s| == 16 && AllHex(s) {
      HexDigitsRead(s);
      if Lowered(s) == Hex64(n) {
        Power16Is();
        HexReads(n, 16);
        HexReads(HexValue(s), 16);
      }
    }
    if |s| == 16 && Lowered(s) == Hex64(n) {
      LoweredHex(s);
    }
  }

  lemma Power16Is()
    ensures Power16(16) == MAX64 + 1
  {
    assert Power16(4) == 0x1_0000 && Power16(8) == 0x1_0000_0000 && Power16(12) == 0x1_0000_0000_0000;
  }
}
