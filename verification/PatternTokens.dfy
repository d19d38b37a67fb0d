/**
  What a pattern text means, told without the readers: whatever the white space, its tokens one by one, and
  each token by its digits.
 */
module PatternTokens {
  import opened Numerals
  import opened Options
  import opened PatternText

  // ---- digits ----

  const LOWER: string := "0123456789abcdef"
  const UPPER: string := "0123456789ABCDEF"

  lemma DigitMeans(c: char, n: nat)
    requires n < 16
    ensures HexDigitValue(c) == n <==> c == LOWER[n] || c == UPPER[n]
  {
  }

  /** Two digits are the byte they write, a question mark or two is a wildcard, and anything else is wrong. */
  lemma TokenMeans(token: string, high: nat, low: nat)
    requires high < 16 && low < 16
    ensures Read(token) == Some(Some((16 * high + low) as Byte)) <==>
      && |token| == 2 && (token[0] == LOWER[high] || token[0] == UPPER[high])
      && (token[1] == LOWER[low] || token[1] == UPPER[low])
    ensures Read(token) == Some(None) <==> token == "?" || token == "??"
  {
    if |token| == 2 {
      DigitMeans(token[0], high);
      DigitMeans(token[1], low);
    }
  }

  // ---- tokens, one by one ----

  predicate Reads(tokens: seq<string>, p: Pattern) {
    |p| == |tokens| && forall i :: 0 <= i < |p| ==> Read(tokens[i]) == Some(p[i])
  }

  lemma {:induction false} ToolReads(tokens: seq<string>, done: Pattern, p: Pattern)
    ensures ReadTool(tokens, done) == Some(p) ==> done <= p && Reads(tokens, p[|done|..])
  {
    if tokens != [] && ReadTool(tokens, done) == Some(p) {
      var item := Read(tokens[0]).value;
      ToolReads(tokens[1..], done + [item], p);
      assert p[|done|] == item && p[|done|..][1..] == p[|done| + 1..];
      forall i | 0 <= i < |tokens|
        ensures Read(tokens[i]) == Some(p[|done|..][i])
      {
        if i > 0 {
          assert tokens[i] == tokens[1..][i - 1];
        }
      }
    }
  }

  lemma {:induction false} RuntimeReads(tokens: seq<string>, done: Pattern, p: Pattern)
    ensures ReadRuntime(tokens, done) == Some(p) ==> done <= p && Reads(tokens, p[|done|..])
  {
    if tokens != [] && ReadRuntime(tokens, done) == Some(p) {
      var item := Read(tokens[0]).value;
      RuntimeReads(tokens[1..], done + [item], p);
      assert p[|done|] == item && p[|done|..][1..] == p[|done| + 1..];
      forall i | 0 <= i < |tokens|
        ensures Read(tokens[i]) == Some(p[|done|..][i])
      {
        if i > 0 {
          assert tokens[i] == tokens[1..][i - 1];
        }
      }
    }
  }

  // ---- white space ----

  datatype Piece = Piece(space: string, token: string)

  function Spaced(pieces: seq<Piece>, tail: string): string {
    if pieces == [] then tail else pieces[0].space + (pieces[0].token + Spaced(pieces[1..], tail))
  }

  predicate AllSpace(s: string) {
    forall i :: 0 <= i < |s| ==> IsSpace(s[i])
  }

  predicate Solid(s: string) {
    s != "" && forall i :: 0 <= i < |s| ==> !IsSpace(s[i])
  }

  /** White space of any kind and length, at least some between two tokens. */
  predicate WellSpaced(pieces: seq<Piece>) {
    forall k :: 0 <= k < |pieces| ==> AllSpace(pieces[k].space) && Solid(pieces[k].token) && (k > 0 ==> pieces[k].space != "")
  }

  function TokensOf(pieces: seq<Piece>): (tokens: seq<string>)
    ensures |tokens| == |pieces|
  {
    seq(|pieces|, k requires 0 <= k < |pieces| => pieces[k].token)
  }

  /** From `i` on, the text is this. */
  predicate Rests(text: string, i: nat, rest: string) {
    |text| == i + |rest| && forall k :: 0 <= k < |rest| ==> text[i + k] == rest[k]
  }

  lemma {:induction false} SkipsAll(text: string, i: nat)
    requires i <= |text| && forall k :: i <= k < |text| ==> IsSpace(text[k])
    ensures SkipSpaces(text, i) == |text|
    decreases |text| - i
  {
    if i < |text| {
      SkipsAll(text, i + 1);
    }
  }

  lemma NoTokens(text: string, i: nat, tail: string)
    requires Rests(text, i, tail) && AllSpace(tail)
    ensures i <= |text| && Tokens(text, i) == []
  {
    forall k | i <= k < |text|
      ensures IsSpace(text[k])
    {
      assert text[i + (k - i)] == tail[k - i];
    }
    SkipsAll(text, i);
  }

  lemma SpacedStarts(pieces: seq<Piece>, tail: string)
    requires WellSpaced(pieces) && AllSpace(tail) && (pieces != [] ==> pieces[0].space != "")
    ensures Spaced(pieces, tail) == "" || IsSpace(Spaced(pieces, tail)[0])
  {
  }

  /** `space`, `token` and `rest` lie in the text from `i` on. */
  predicate Lies(text: string, i: nat, space: string, token: string, rest: string) {
    && |text| == i + |space| + |token| + |rest|
    && (forall k :: 0 <= k < |space| ==> text[i + k] == space[k])
    && (forall k :: 0 <= k < |token| ==> text[i + |space| + k] == token[k])
    && Rests(text, i + |space| + |token|, rest)
  }

  lemma ConcatLies(text: string, i: nat, space: string, token: string, rest: string)
    requires Rests(text, i, space + (token + rest))
    ensures Lies(text, i, space, token, rest)
  {
    var all := space + (token + rest);
    forall k | 0 <= k < |space|
      ensures text[i + k] == space[k]
    {
      assert all[k] == space[k];
    }
    forall k | 0 <= k < |token|
      ensures text[i + |space| + k] == token[k]
    {
      assert text[i + (|space| + k)] == all[|space| + k] == token[k];
    }
    forall k | 0 <= k < |rest|
      ensures text[i + |space| + |token| + k] == rest[k]
    {
      assert text[i + (|space| + |token| + k)] == all[|space| + |token| + k] == rest[k];
    }
  }

  lemma PieceSkipped(text: string, i: nat, space: string, token: string, rest: string)
    requires Lies(text, i, space, token, rest)
    requires AllSpace(space) && Solid(token) && (rest == "" || IsSpace(rest[0]))
    ensures SkipSpaces(text, i) == i + |space| && SkipToken(text, i + |space|) == i + |space| + |token|
  {
    var start, end := i + |space|, i + |space| + |token|;
    forall k | i <= k < start
      ensures IsSpace(text[k])
    {
      assert text[i + (k - i)] == space[k - i];
    }
    forall k | start <= k < end
      ensures !IsSpace(text[k])
    {
      assert text[start + (k - start)] == token[k - start];
    }
    assert end < |text| ==> text[end + 0] == rest[0];
    SkipsTo(text, i, start);
    TokenAt(text, start, end);
  }

  lemma PieceTaken(text: string, i: nat, space: string, token: string, rest: string) returns (end: nat)
    requires Lies(text, i, space, token, rest)
    requires AllSpace(space) && Solid(token) && (rest == "" || IsSpace(rest[0]))
    ensures i <= end <= |text| && Rests(text, end, rest) && Tokens(text, i) == [token] + Tokens(text, end)
  {
    end := i + |space| + |token|;
    PieceSkipped(text, i, space, token, rest);
    assert text[i + |space|..i + |space| + |token|] == token;
  }

  lemma LaterSpaced(pieces: seq<Piece>)
    requires WellSpaced(pieces) && pieces != []
    ensures WellSpaced(pieces[1..]) && (pieces[1..] != [] ==> pieces[1..][0].space != "")
    ensures TokensOf(pieces) == [pieces[0].token] + TokensOf(pieces[1..])
    ensures AllSpace(pieces[0].space) && Solid(pieces[0].token)
  {
    assert pieces[1..] != [] ==> pieces[1..][0] == pieces[1];
  }

  /** The first token is taken, and the rest of the text is the rest of the pieces. */
  lemma FirstTaken(text: string, i: nat, pieces: seq<Piece>, tail: string) returns (end: nat)
    requires Rests(text, i, Spaced(pieces, tail)) && WellSpaced(pieces) && AllSpace(tail) && pieces != []
    ensures i <= end <= |text| && Rests(text, end, Spaced(pieces[1..], tail))
    ensures Tokens(text, i) == [pieces[0].token] + Tokens(text, end)
  {
    var p, rest := pieces[0], Spaced(pieces[1..], tail);
    LaterSpaced(pieces);
    SpacedStarts(pieces[1..], tail);
    assert rest == "" || IsSpace(rest[0]);
    ConcatLies(text, i, p.space, p.token, rest);
    end := PieceTaken(text, i, p.space, p.token, rest);
  }

  lemma {:induction false} SpacedTokens(text: string, i: nat, pieces: seq<Piece>, tail: string)
    requires Rests(text, i, Spaced(pieces, tail)) && WellSpaced(pieces) && AllSpace(tail)
    ensures i <= |text| && Tokens(text, i) == TokensOf(pieces)
    decreases |pieces|
  {
    if pieces == [] {
      NoTokens(text, i, tail);
    } else {
      var end := FirstTaken(text, i, pieces, tail);
      LaterSpaced(pieces);
      SpacedTokens(text, end, pieces[1..], tail);
    }
  }

  /** Whatever white space separates them, a text is read as its tokens, one item for each. */
  lemma ParsesTokenwise(pieces: seq<Piece>, tail: string, p: Pattern)
    requires WellSpaced(pieces) && AllSpace(tail)
    ensures ParseTool(Spaced(pieces, tail)) == Some(p) <==> Reads(TokensOf(pieces), p) && 0 < |p| <= MAX_PATTERN
    ensures ParseRuntime(Spaced(pieces, tail)) == Some(p) ==> Reads(TokensOf(pieces), p)
  {
    var text, tokens := Spaced(pieces, tail), TokensOf(pieces);
    SpacedTokens(text, 0, pieces, tail);
    ToolReads(tokens, [], p);
    RuntimeReads(tokens, [], p);
    assert p[0..] == p;
    if Reads(tokens, p) && 0 < |p| <= MAX_PATTERN {
      ToolAccepts(tokens, []);
      var q := ReadTool(tokens, []).value;
      ToolReads(tokens, [], q);
      assert q[0..] == q && q == p;
    }
    if ReadTool(tokens, []) == Some(p) {
      ToolAccepts(tokens, []);
    }
  }

  // ---- the normal form ----

  /** Two upper-case digits, or two question marks. */
  function Spelled(item: Option<Byte>): string {
    if item.None? then "??" else [UPPER[item.value as int / 16], UPPER[item.value as int % 16]]
  }

  lemma HexCharIs(n: int)
    requires 0 <= n < 16
    ensures HexChar(n) == UPPER[n]
  {
  }

  lemma ItemSpelled(item: Option<Byte>)
    ensures ItemText(item) == Spelled(item)
  {
    if item.Some? {
      HexCharIs(item.value as int / 16);
      HexCharIs(item.value as int % 16);
    }
  }

  /** The item is spelled from place `i` on. */
  predicate SpelledAt(text: string, i: nat, item: Option<Byte>) {
    i + 2 <= |text| && text[i] == Spelled(item)[0] && text[i + 1] == Spelled(item)[1]
  }

  /** A normal form has its items at every third place, with one space between them. */
  lemma {:induction false} PrintIs(p: Pattern, i: nat)
    requires i < |p|
    ensures |Print(p)| == 3 * |p| - 1 && SpelledAt(Print(p), 3 * i, p[i])
    ensures i < |p| - 1 ==> Print(p)[3 * i + 2] == ' '
    decreases |p|
  {
    var last := p[|p| - 1];
    ItemSpelled(last);
    if |p| > 1 {
      var front := p[..|p| - 1];
      var text := Print(front);
      PrintIs(front, if i < |front| then i else 0);
      LastSpelled(text, last);
      assert Print(p) == text + " " + Spelled(last);
      assert i < |front| ==> front[i] == p[i];
    }
  }

  lemma LastSpelled(text: string, last: Option<Byte>)
    ensures var more := text + " " + Spelled(last);
      && |more| == |text| + 3 && more[|text|] == ' ' && SpelledAt(more, |text| + 1, last)
      && forall i :: 0 <= i < |text| ==> more[i] == text[i]
  {
  }
}
