/**
  The two readers of byte patterns: the runtime's, which hooks are found with, and the compatibility
  tool's, which also writes the pattern back in normal form.
 */
module PatternText {
  import opened Numerals
  import opened Options

  const MAX_PATTERN: nat := 4096

  newtype Byte = x: int | 0 <= x < 256

  /** A wildcard is `None`. */
  type Pattern = seq<Option<Byte>>

  predicate IsSpace(c: char) {
    c as int in {9, 10, 11, 12, 13, 32}
  }

  // ---- tokens ----

  function SkipSpaces(text: string, i: nat): (j: nat)
    requires i <= |text|
    ensures i <= j <= |text| && (j < |text| ==> !IsSpace(text[j])) && forall k :: i <= k < j ==> IsSpace(text[k])
    decreases |text| - i
  {
    if i < |text| && IsSpace(text[i]) then SkipSpaces(text, i + 1) else i
  }

  function SkipToken(text: string, i: nat): (j: nat)
    requires i <= |text|
    ensures i <= j <= |text| && (j < |text| ==> IsSpace(text[j])) && forall k :: i <= k < j ==> !IsSpace(text[k])
    decreases |text| - i
  {
    if i < |text| && !IsSpace(text[i]) then SkipToken(text, i + 1) else i
  }

  /** The tokens of the text from position `i` on. */
  function Tokens(text: string, i: nat): seq<string>
    requires i <= |text|
    decreases |text| - i
  {
    var start := SkipSpaces(text, i);
    if start == |text| then []
    else
      var end := SkipToken(text, start);
      [text[start..end]] + Tokens(text, end)
  }

  predicate Wild(token: string) {
    token == "?" || token == "??"
  }

  function Read(token: string): Option<Option<Byte>> {
    if Wild(token) then Some(None)
    else if |token| != 2 || HexDigitValue(token[0]) < 0 || HexDigitValue(token[1]) < 0 then None
    else Some(Some((HexDigitValue(token[0]) * 16 + HexDigitValue(token[1])) as Byte))
  }

  /** The runtime looks at the length only after a byte, never after a wildcard. */
  function ReadRuntime(tokens: seq<string>, done: Pattern): Option<Pattern> {
    if tokens == [] then if done == [] then None else Some(done)
    else
      var item := Read(tokens[0]);
      if item.None? then None
      else if item.value.Some? && |done| + 1 > MAX_PATTERN then None
      else ReadRuntime(tokens[1..], done + [item.value])
  }

  /** The tool looks at the length after every token. */
  function ReadTool(tokens: seq<string>, done: Pattern): Option<Pattern> {
    if tokens == [] then if done == [] then None else Some(done)
    else
      var item := Read(tokens[0]);
      if item.None? || |done| + 1 > MAX_PATTERN then None
      else ReadTool(tokens[1..], done + [item.value])
  }

  function ParseRuntime(text: string): Option<Pattern> {
    ReadRuntime(Tokens(text, 0), [])
  }

  function ParseTool(text: string): Option<Pattern> {
    ReadTool(Tokens(text, 0), [])
  }

  // ---- the two readers agree on what the tool accepts ----

  lemma {:induction false} ReadersAgree(tokens: seq<string>, done: Pattern, p: Pattern)
    ensures ReadTool(tokens, done) == Some(p) && |done| <= MAX_PATTERN ==> ReadRuntime(tokens, done) == Some(p) && |p| <= MAX_PATTERN
    ensures ReadRuntime(tokens, done) == Some(p) ==> |p| >= |done|
    ensures ReadRuntime(tokens, done) == Some(p) && |p| <= MAX_PATTERN ==> ReadTool(tokens, done) == Some(p)
  {
    if tokens != [] {
      var item := Read(tokens[0]);
      if item.Some? {
        ReadersAgree(tokens[1..], done + [item.value], p);
      }
    }
  }

  /** The tool accepts exactly the runtime's patterns of legal length, and reads them the same. */
  lemma ParsersAgree(text: string, p: Pattern)
    ensures ParseTool(text) == Some(p) <==> ParseRuntime(text) == Some(p) && |p| <= MAX_PATTERN
  {
    ReadersAgree(Tokens(text, 0), [], p);
  }

  // ---- exactly when they do not ----

  /** Each token reads, and none from the `limit`-th on is a byte. */
  predicate WildFrom(tokens: seq<string>, limit: int) {
    forall i :: 0 <= i < |tokens| ==> Read(tokens[i]).Some? && (i >= limit ==> Wild(tokens[i]))
  }

  lemma {:induction false} RuntimeAccepts(tokens: seq<string>, done: Pattern)
    ensures ReadRuntime(tokens, done).Some? <==> (tokens != [] || done != []) && WildFrom(tokens, MAX_PATTERN - |done|)
    decreases |tokens|
  {
    if tokens != [] {
      assert WildFrom(tokens, MAX_PATTERN - |done|) <==>
        Read(tokens[0]).Some? && (0 >= MAX_PATTERN - |done| ==> Wild(tokens[0])) && WildFrom(tokens[1..], MAX_PATTERN - |done| - 1) by {
        assert forall i :: 0 <= i < |tokens| - 1 ==> tokens[1..][i] == tokens[i + 1];
        assert forall i :: 0 < i < |tokens| ==> tokens[i] == tokens[1..][i - 1];
      }
      if Read(tokens[0]).Some? {
        RuntimeAccepts(tokens[1..], done + [Read(tokens[0]).value]);
      }
    }
  }

  lemma {:induction false} ToolAccepts(tokens: seq<string>, done: Pattern)
    requires |done| <= MAX_PATTERN
    ensures ReadTool(tokens, done).Some? <==>
            (tokens != [] || done != []) && WildFrom(tokens, |tokens|) && |done| + |tokens| <= MAX_PATTERN
    decreases |tokens|
  {
    if tokens != [] {
      assert WildFrom(tokens, |tokens|) <==> Read(tokens[0]).Some? && WildFrom(tokens[1..], |tokens[1..]|) by {
        assert forall i :: 0 < i < |tokens| ==> tokens[i] == tokens[1..][i - 1];
        assert forall i :: 0 <= i < |tokens| - 1 ==> tokens[1..][i] == tokens[i + 1];
      }
      if Read(tokens[0]).Some? && |done| < MAX_PATTERN {
        ToolAccepts(tokens[1..], done + [Read(tokens[0]).value]);
      }
    }
  }

  /** The two parsers differ exactly on texts of readable tokens that go on past the limit with wildcards only. */
  lemma ParsersDifferIff(text: string)
    ensures ParseRuntime(text) != ParseTool(text) <==> |Tokens(text, 0)| > MAX_PATTERN && WildFrom(Tokens(text, 0), MAX_PATTERN)
  {
    var tokens := Tokens(text, 0);
    RuntimeAccepts(tokens, []);
    ToolAccepts(tokens, []);
    if ParseTool(text).Some? {
      ParsersAgree(text, ParseTool(text).value);
    }
    assert |tokens| <= MAX_PATTERN ==> (WildFrom(tokens, MAX_PATTERN) <==> WildFrom(tokens, |tokens|));
    assert WildFrom(tokens, MAX_PATTERN) ==> WildFrom(tokens, |tokens|);
  }

  function Wildcards(n: nat): (text: string)
    ensures |text| == 2 * n && forall i :: 0 <= i < n ==> text[2 * i] == '?' && text[2 * i + 1] == ' '
  {
    if n == 0 then "" else Wildcards(n - 1) + "? "
  }

  lemma {:induction false} WildcardTokens(n: nat, k: nat)
    requires k <= n
    ensures |Tokens(Wildcards(n), 2 * k)| == n - k && forall i :: 0 <= i < n - k ==> Tokens(Wildcards(n), 2 * k)[i] == "?"
    decreases n - k
  {
    var text := Wildcards(n);
    if k < n {
      WildcardTokens(n, k + 1);
      assert text[2 * k] == '?' && text[2 * k + 1] == ' ';
      assert SkipSpaces(text, 2 * k) == 2 * k && SkipToken(text, 2 * k) == 2 * k + 1;
      assert SkipSpaces(text, 2 * k + 1) == SkipSpaces(text, 2 * (k + 1));
      assert Tokens(text, 2 * k + 1) == Tokens(text, 2 * (k + 1));
      assert Tokens(text, 2 * k) == [text[2 * k..2 * k + 1]] + Tokens(text, 2 * (k + 1)) && text[2 * k..2 * k + 1] == "?";
    } else {
      assert Tokens(text, 2 * k) == [];
    }
  }

  /** One wildcard more than the limit: the runtime takes it, the tool does not. */
  lemma ParsersDiffer()
    ensures ParseRuntime(Wildcards(MAX_PATTERN + 1)).Some? && ParseTool(Wildcards(MAX_PATTERN + 1)).None?
  {
    var tokens := Tokens(Wildcards(MAX_PATTERN + 1), 0);
    WildcardTokens(MAX_PATTERN + 1, 0);
    RuntimeAccepts(tokens, []);
    ToolAccepts(tokens, []);
  }

  // ---- normal form ----

  function HexChar(n: int): char
    requires 0 <= n < 16
  {
    if n < 10 then '0' + n as char else 'A' + (n - 10) as char
  }

  function ItemText(item: Option<Byte>): string {
    if item.None? then "??" else [HexChar(item.value as int / 16), HexChar(item.value as int % 16)]
  }

  function Print(p: Pattern): string {
    if p == [] then "" else if |p| == 1 then ItemText(p[0]) else Print(p[..|p| - 1]) + " " + ItemText(p[|p| - 1])
  }

  function Texts(p: Pattern): (ts: seq<string>)
    ensures |ts| == |p| && forall i :: 0 <= i < |p| ==> ts[i] == ItemText(p[i])
  {
    seq(|p|, i requires 0 <= i < |p| => ItemText(p[i]))
  }

  lemma ItemReads(item: Option<Byte>)
    ensures Read(ItemText(item)) == Some(item) && |ItemText(item)| == 2
    ensures !IsSpace(ItemText(item)[0]) && !IsSpace(ItemText(item)[1])
  {
    if item.Some? {
      var h, l := item.value as int / 16, item.value as int % 16;
      assert HexDigitValue(HexChar(h)) == h && HexDigitValue(HexChar(l)) == l;
      assert ItemText(item)[0] != '?';
    }
  }

  lemma LastToken(text: string, i: nat, j: nat)
    requires i <= j && |text| == j + 2 && forall k :: i <= k < j ==> IsSpace(text[k])
    requires !IsSpace(text[j]) && !IsSpace(text[j + 1])
    ensures Tokens(text, i) == [text[j..]]
  {
    SkipsTo(text, i, j);
    TokenAt(text, j, j + 2);
    assert Tokens(text, j + 2) == [] && text[j..j + 2] == text[j..];
  }

  /** A text that goes on with a space and a token has one token more. */
  lemma {:induction false} TokensAppend(text: string, i: nat, token: string)
    requires i <= |text| && |token| == 2 && !IsSpace(token[0]) && !IsSpace(token[1])
    ensures Tokens(text + " " + token, i) == Tokens(text, i) + [token]
    decreases |text| - i
  {
    var whole := text + " " + token;
    var start := SkipSpaces(text, i);
    assert forall k :: 0 <= k < |text| ==> whole[k] == text[k];
    assert whole[|text|] == ' ' && whole[|text| + 1..] == token;
    if start == |text| {
      LastToken(whole, i, |text| + 1);
    } else {
      var end := SkipToken(text, start);
      SkipsTo(whole, i, start);
      TokenAt(whole, start, end);
      TokensAppend(text, end, token);
      assert whole[start..end] == text[start..end];
    }
  }

  lemma {:induction false} SkipsTo(text: string, i: nat, j: nat)
    requires i <= j < |text| && !IsSpace(text[j]) && forall k :: i <= k < j ==> IsSpace(text[k])
    ensures SkipSpaces(text, i) == j
    decreases j - i
  {
    if i < j {
      SkipsTo(text, i + 1, j);
    }
  }

  lemma {:induction false} TokenAt(text: string, i: nat, j: nat)
    requires i <= j <= |text| && (j < |text| ==> IsSpace(text[j])) && forall k :: i <= k < j ==> !IsSpace(text[k])
    ensures SkipToken(text, i) == j
    decreases j - i
  {
    if i < j {
      TokenAt(text, i + 1, j);
    }
  }

  lemma OneToken(text: string)
    requires |text| == 2 && !IsSpace(text[0]) && !IsSpace(text[1])
    ensures Tokens(text, 0) == [text]
  {
    SkipsTo(text, 0, 0);
    TokenAt(text, 0, 2);
    assert text[0..2] == text && Tokens(text, 2) == [];
  }

  lemma TextsAppend(p: Pattern, item: Option<Byte>)
    ensures Texts(p + [item]) == Texts(p) + [ItemText(item)]
    ensures p != [] ==> Print(p + [item]) == Print(p) + " " + ItemText(item)
  {
    assert (p + [item])[..|p|] == p;
  }

  lemma {:induction false} PrintTokens(p: Pattern)
    requires p != []
    ensures Tokens(Print(p), 0) == Texts(p)
  {
    var last := p[|p| - 1];
    ItemReads(last);
    if |p| == 1 {
      OneToken(ItemText(last));
    } else {
      var front := p[..|p| - 1];
      PrintTokens(front);
      TokensAppend(Print(front), 0, ItemText(last));
      TextsAppend(front, last);
      assert p == front + [last];
    }
  }

  lemma {:induction false} TextsRead(p: Pattern, i: nat)
    requires i <= |p| <= MAX_PATTERN && p != []
    ensures ReadTool(Texts(p)[i..], p[..i]) == Some(p)
    decreases |p| - i
  {
    if i < |p| {
      ItemReads(p[i]);
      assert Texts(p)[i..][0] == ItemText(p[i]) && Texts(p)[i..][1..] == Texts(p)[i + 1..];
      assert p[..i] + [p[i]] == p[..i + 1];
      TextsRead(p, i + 1);
    } else {
      assert p[..i] == p;
    }
  }

  /** Reading a normal form gives the pattern back, so a normal form is its own normal form. */
  lemma NormalFormReads(p: Pattern)
    requires 0 < |p| <= MAX_PATTERN
    ensures ParseTool(Print(p)) == Some(p) && ParseRuntime(Print(p)) == Some(p)
  {
    PrintTokens(p);
    TextsRead(p, 0);
    assert Texts(p)[0..] == Texts(p) && p[..0] == [];
    ParsersAgree(Print(p), p);
  }

  // ---- the loops ----

  lemma PrintAppend(p: Pattern, item: Option<Byte>)
    ensures Print(p + [item]) == (if p == [] then "" else Print(p) + " ") + ItemText(item)
  {
    assert (p + [item])[..|p|] == p;
  }

  /** One token is read the same way by either reader. */
  lemma ReadsOn(token: string, rest: seq<string>, done: Pattern)
    ensures ReadTool([token] + rest, done) ==
            if Read(token).None? || |done| + 1 > MAX_PATTERN then None else ReadTool(rest, done + [Read(token).value])
  {
    assert ([token] + rest)[1..] == rest;
  }

  /** Skip spaces, then take what comes before the next space; an empty token means the text is used up. */
  method NextToken(text: string, from: nat) returns (token: string, position: nat)
    requires from < |text|
    ensures from <= position <= |text| && (token != "" ==> from < position)
    ensures Tokens(text, from) == if token == "" then [] else [token] + Tokens(text, position)
    ensures token == "" ==> position == |text|
  {
    position := from;
    while position < |text| && IsSpace(text[position])
      invariant from <= position <= |text| && SkipSpaces(text, position) == SkipSpaces(text, from)
    {
      position := position + 1;
    }
    if position == |text| {
      return "", position;
    }
    var start := position;
    while position < |text| && !IsSpace(text[position])
      invariant start <= position <= |text| && SkipToken(text, position) == SkipToken(text, start)
      invariant position == start ==> !IsSpace(text[position])
    {
      position := position + 1;
    }
    token := text[start..position];
  }

  method ParsePatternRuntime(text: string) returns (result: Option<Pattern>)
    ensures result == ParseRuntime(text)
  {
    var position := 0;
    var bytes: Pattern := [];
    while position < |text|
      invariant 0 <= position <= |text| && ReadRuntime(Tokens(text, position), bytes) == ParseRuntime(text)
    {
      var token, next := NextToken(text, position);
      if token == "" {
        position := next;
        break;
      }
      position := next;
      assert ([token] + Tokens(text, position))[1..] == Tokens(text, position);
      if Wild(token) {
        bytes := bytes + [None];
        continue;
      }
      if |token| != 2 {
        return None;
      }
      var high, low := HexDigitValue(token[0]), HexDigitValue(token[1]);
      if high < 0 || low < 0 {
        return None;
      }
      bytes := bytes + [Some((high * 16 + low) as Byte)];
      if |bytes| > MAX_PATTERN {
        return None;
      }
    }
    return if bytes == [] then None else Some(bytes);
  }

  /** One token of the tool's pattern, with its normal form. */
  method ReadItem(token: string) returns (item: Option<Option<Byte>>, text: string)
    ensures item == Read(token) && (item.Some? ==> text == ItemText(item.value))
  {
    if Wild(token) {
      return Some(None), "??";
    }
    if |token| != 2 {
      return None, "";
    }
    var high, low := HexDigitValue(token[0]), HexDigitValue(token[1]);
    if high < 0 || low < 0 {
      return None, "";
    }
    return Some(Some((high * 16 + low) as Byte)), [HexChar(high), HexChar(low)];
  }

  method ParsePatternTool(text: string) returns (result: Option<Pattern>, normalized: string)
    ensures result == ParseTool(text)
    ensures result.Some? ==> normalized == Print(result.value)
  {
    var position := 0;
    var pattern: Pattern := [];
    normalized := "";
    while position < |text|
      invariant 0 <= position <= |text| && ReadTool(Tokens(text, position), pattern) == ParseTool(text)
      invariant normalized == Print(pattern)
    {
      var token, next := NextToken(text, position);
      if token == "" {
        position := next;
        break;
      }
      ReadsOn(token, Tokens(text, next), pattern);
      position := next;
      var item, piece := ReadItem(token);
      if item.None? {
        return None, "";
      }
      PrintAppend(pattern, item.value);
      if pattern != [] {
        normalized := normalized + " ";
      }
      normalized := normalized + piece;
      pattern := pattern + [item.value];
      if |pattern| > MAX_PATTERN {
        return None, "";
      }
    }
    result := if pattern == [] then None else Some(pattern);
  }
}
