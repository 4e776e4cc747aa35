/** Properties of the lexer's specification: the indentation stack, the balance of INDENT and
    DEDENT tokens, the EOF token and line numbers, and the rule for each kind of lexeme. */
module LexerProps {
  import opened Results
  import opened Tokens
  import opened Lexing

  // ---------------------------------------------------------------------------
  // Runs and indentation

  /** A run ends at the first index whose character fails `p`: any `j` with that property
      is `RunEnd`. */
  lemma {:induction false} RunEndIs(s: string, i: nat, p: char -> bool, j: nat)
    requires i <= j <= |s|
    requires forall k :: i <= k < j ==> p(s[k])
    requires j == |s| || !p(s[j])
    ensures RunEnd(s, i, p) == j
    decreases j - i
  {
    if i < j {
      RunEndIs(s, i + 1, p, j);
    }
  }

  /** `s` with every '\n' and '\r' removed. */
  function WithoutCrLf(s: string): (r: string)
    ensures '\n' !in r && '\r' !in r
  {
    if s == [] then []
    else (if s[0] == '\n' || s[0] == '\r' then [] else [s[0]]) + WithoutCrLf(s[1..])
  }

  /** The lines, put back together. */
  function Joined(lines: seq<string>): string
  {
    if lines == [] then [] else lines[0] + Joined(lines[1..])
  }

  lemma {:induction false} WithoutCrLfConcat(a: string, b: string)
    ensures WithoutCrLf(a + b) == WithoutCrLf(a) + WithoutCrLf(b)
    decreases |a|
  {
    if a != [] {
      assert (a + b)[1..] == a[1..] + b;
      WithoutCrLfConcat(a[1..], b);
    } else {
      assert a + b == b;
    }
  }

  lemma {:induction false} WithoutCrLfKeeps(a: string)
    requires '\n' !in a && '\r' !in a
    ensures WithoutCrLf(a) == a
    decreases |a|
  {
    if a != [] {
      assert a[0] in a;
      WithoutCrLfKeeps(a[1..]);
    }
  }

  /** A line boundary as `SplitLines` leaves it at the end of a line: gone if it is '\n', '\r'
      or "\r\n", kept otherwise. */
  function Stripped(sep: string): string
    requires |sep| > 0
  {
    if sep[0] == '\n' || sep[0] == '\r' then [] else sep
  }

  /** A line boundary loses its line feed and carriage return, and keeps any other
      character. */
  lemma BoundaryStripped(sep: string)
    requires sep == "\r\n" || (|sep| == 1 && IsLineBreak(sep[0]))
    ensures WithoutCrLf(sep) == Stripped(sep)
  {
    if |sep| == 2 {
      assert sep[1..][1..] == [];
      assert WithoutCrLf(sep[1..]) == [];
    } else {
      assert sep[1..] == [];
    }
  }

  /** Splitting into lines loses nothing but line feeds and carriage returns, and keeps the
      order: the lines put back together are the code without '\n' and '\r'. */
  lemma {:induction false} SplitLinesJoin(code: string)
    ensures Joined(SplitLines(code)) == WithoutCrLf(code)
    decreases |code|
  {
    if code != [] {
      var j := RunEnd(code, 0, NotLineBreak);
      if j == |code| {
        RunEndSpec(code, 0, NotLineBreak);
        assert forall k :: 0 <= k < j ==> NotLineBreak(code[k]);
        WithoutCrLfKeeps(code);
        assert Joined([code]) == code + Joined([]);
      } else {
        var head, sep, rest := SplitLinesBoundary(code, j);
        CrLfBoundary(head, sep, rest);
        SplitLinesJoin(rest);
        assert Joined(SplitLines(code)) == head + Stripped(sep) + Joined(SplitLines(rest));
      }
    }
  }

  /** The first line boundary `sep` of `code`, at `j`: the first line is the text `head` before
      it followed by what is left of the boundary, and the other lines are those of `rest`. */
  lemma SplitLinesBoundary(code: string, j: nat) returns (head: string, sep: string, rest: string)
    requires j == RunEnd(code, 0, NotLineBreak) < |code|
    ensures code == head + sep + rest && |rest| < |code|
    ensures forall k :: 0 <= k < |head| ==> NotLineBreak(head[k])
    ensures sep == "\r\n" || (|sep| == 1 && IsLineBreak(sep[0]))
    ensures SplitLines(code) == [head + Stripped(sep)] + SplitLines(rest)
  {
    RunEndSpec(code, 0, NotLineBreak);
    var width := if code[j] == '\r' && j + 1 < |code| && code[j + 1] == '\n' then 2 else 1;
    head, sep, rest := code[..j], code[j..j + width], code[j + width..];
    assert sep[0] == code[j] && (width == 2 ==> sep == "\r\n") && (width == 1 ==> sep == [code[j]]);
    assert code == head + sep + rest;
  }

  /** Text without line breaks, one boundary, then more text: removing '\n' and '\r' keeps the
      text and what is left of the boundary. */
  lemma CrLfBoundary(head: string, sep: string, rest: string)
    requires forall k :: 0 <= k < |head| ==> NotLineBreak(head[k])
    requires sep == "\r\n" || (|sep| == 1 && IsLineBreak(sep[0]))
    ensures WithoutCrLf(head + sep + rest) == head + Stripped(sep) + WithoutCrLf(rest)
  {
    WithoutCrLfKeeps(head);
    BoundaryStripped(sep);
    WithoutCrLfConcat(head + sep, rest);
    WithoutCrLfConcat(head, sep);
  }

  /** The scanner's character classes do not overlap: whitespace, the quote, digits and word
      starts are told apart whatever the order of the tests, and a word character is a word
      start or a digit. */
  lemma ClassesDisjoint(c: char)
    ensures IsSpace(c) ==> c != '"' && !IsDigit(c) && !IsWordChar(c)
    ensures IsDigit(c) ==> c != '"' && !IsWordStart(c)
    ensures IsWordChar(c) <==> IsWordStart(c) || IsDigit(c)
  {
  }

  /** The tab check of `get_indent_len` never fires: the counting loop already stops at the
      first tab, so the counted prefix holds none. */
  lemma TabCheckNeverFires(s: string, line: nat)
    ensures IndentOf(s, line) == Ok(RunEnd(s, 0, IsIndentChar))
  {
    var n := RunEnd(s, 0, IsIndentChar);
    RunEndSpec(s, 0, IsIndentChar);
    assert forall k :: 0 <= k < n ==> s[..n][k] != '\t';
  }

  /** The dedent loop pops exactly the levels above the topmost level `stack[j]` that is no
      deeper than `indent`. */
  lemma {:induction false} PopCountLevels(stack: seq<nat>, indent: nat, j: nat)
    requires j < |stack| && stack[j] <= indent
    requires forall k :: j < k < |stack| ==> indent < stack[k]
    ensures PopCount(stack, indent) == |stack| - 1 - j
    decreases |stack|
  {
    if j < |stack| - 1 {
      PopCountLevels(stack[..|stack| - 1], indent, j);
    }
  }

  /** Every successful line keeps the indentation stack rooted at 0 and strictly increasing. */
  lemma LineStepAscending(stack: seq<nat>, acc: seq<Token>, s: string, line: nat)
    requires Ascending(stack)
    ensures LineStep(stack, acc, s, line).Ok? ==> Ascending(LineStep(stack, acc, s, line).value.0)
  {
    if IndentOf(s, line).Ok? {
      NewStackAscending(stack, IndentOf(s, line).value);
    }
  }

  /** A line whose width falls strictly between two open levels pops the deeper levels and
      opens a level of its own width: the INDENT comes before the DEDENTs. */
  lemma BetweenLevels(stack: seq<nat>, acc: seq<Token>, indent: nat, j: nat, line: nat)
    requires Ascending(stack)
    requires j + 1 < |stack| && stack[j] < indent < stack[j + 1]
    ensures NewStack(stack, indent) == stack[..j + 1] + [indent]
    ensures LayoutTokens(stack, acc, indent, line)
            == acc + [TextToken(INDENT, "", line)] + Dedents(|stack| - 1 - j, line)
  {
    PopCountLevels(stack, indent, j);
    LayoutIs(stack, acc, indent, line);
  }

  /** A line of width 0 closes every open block: only the bottom level survives and one DEDENT
      is emitted per level closed. */
  lemma WidthZeroClosesAll(stack: seq<nat>, acc: seq<Token>, line: nat)
    requires Ascending(stack)
    ensures NewStack(stack, 0) == [0]
    ensures LayoutTokens(stack, acc, 0, line) == acc + Dedents(|stack| - 1, line)
  {
    PopCountLevels(stack, 0, 0);
    LayoutIs(stack, acc, 0, line);
  }

  /** In particular an empty line, whose width is 0, closes every open block. */
  lemma EmptyLineClosesAll(stack: seq<nat>, acc: seq<Token>, line: nat)
    requires Ascending(stack)
    ensures LineStep(stack, acc, "", line) == Ok(([0], acc + Dedents(|stack| - 1, line)))
  {
    WidthZeroClosesAll(stack, acc, line);
    assert IndentOf("", line) == Ok(0);
    assert Scan("", 0, line) == Ok([]);
    assert acc + Dedents(|stack| - 1, line) + [] == acc + Dedents(|stack| - 1, line);
  }

  // ---------------------------------------------------------------------------
  // The rules for lexemes

  /** A string literal is the text between its opening quote and the next quote on the line;
      without a closing quote the line is an error. */
  lemma StringRule(s: string, i: nat, line: nat)
    requires i < |s| && s[i] == '"'
    ensures match StringStep(s, i, line)
            case Ok((t, next)) =>
              && i + 1 < next <= |s| && s[next - 1] == '"' && '"' !in s[i + 1..next - 1]
              && t == Some(TextToken(STRING, s[i + 1..next - 1], line))
            case Err(e) => e == UnterminatedString(line) && '"' !in s[i + 1..]
  {
    var j := RunEnd(s, i + 1, NotQuote);
    RunEndSpec(s, i + 1, NotQuote);
    if j == |s| {
      assert s[i + 1..] == s[i + 1..j];
    }
  }

  /** The decimal digits of `n`, as Python's `str` writes a non-negative integer. */
  function DecimalString(n: nat): (r: string)
    ensures |r| > 0 && forall k :: 0 <= k < |r| ==> IsDigit(r[k])
  {
    var d := [('0' as int + n % 10) as char];
    if n < 10 then d else DecimalString(n / 10) + d
  }

  /** `DecimalValue` reads back every number written in decimal. */
  lemma {:induction false} DecimalRoundTrip(n: nat)
    ensures DecimalValue(DecimalString(n)) == n
  {
    var r := DecimalString(n);
    if n < 10 {
      assert r[..|r| - 1] == [];
    } else {
      DecimalRoundTrip(n / 10);
      assert r[..|r| - 1] == DecimalString(n / 10);
    }
  }

  /** A maximal run of digits is one NUMBER token holding the run's value. */
  lemma NumberRule(s: string, i: nat, line: nat)
    requires i < |s| && IsDigit(s[i])
    ensures match NumberStep(s, i, line)
            case Ok((Some(t), j)) =>
              && (forall k :: i <= k < j ==> IsDigit(s[k]))
              && (j == |s| || !IsDigit(s[j]))
              && t == Tok(NUMBER, Num(DecimalValue(s[i..j])), line)
            case _ => false
  {
    RunEndSpec(s, i, IsDigit);
  }

  /** A maximal word is one token: its keyword kind if it is in the keyword table, IDENTIFIER
      otherwise, with the word itself as value. */
  lemma WordRule(s: string, i: nat, line: nat)
    requires i < |s| && IsWordStart(s[i])
    ensures match WordStep(s, i, line)
            case Ok((Some(t), j)) =>
              && (forall k :: i <= k < j ==> IsWordChar(s[k]))
              && (j == |s| || !IsWordChar(s[j]))
              && t.value == Text(s[i..j]) && t.line == line
              && (Keyword(s[i..j]).Some? ==> t.kind == Kw(Keyword(s[i..j]).value))
              && (Keyword(s[i..j]).None? ==> t.kind == IDENTIFIER)
            case _ => false
  {
    RunEndSpec(s, i, IsWordChar);
  }

  /** The word `range` always lexes as the keyword RANGE, never as an identifier, so no
      program can name the builtin `range`. */
  lemma RangeIsKeyword(s: string, i: nat, line: nat)
    requires i + 5 <= |s| && s[i..i + 5] == "range"
    requires i + 5 == |s| || !IsWordChar(s[i + 5])
    ensures ScanOne(s, i, line) == Ok((Some(TextToken(Kw(RANGE), "range", line)), i + 5))
  {
    assert s[i] == 'r';
    assert forall k :: i <= k < i + 5 ==> s[k] == "range"[k - i];
    RunEndIs(s, i, IsWordChar, i + 5);
  }

  /** Every keyword of the table is shaped like a word, so the word scanner reaches each. */
  lemma KeywordsAreWords(w: string)
    requires Keyword(w).Some?
    ensures |w| > 0 && IsWordStart(w[0]) && forall k :: 0 <= k < |w| ==> IsWordChar(w[k])
  {
  }

  /** Every operator has one character except `==`, and none starts with whitespace, a quote
      or a word character, so the scanner's earlier branches never hide one. */
  lemma OperatorShapes(w: string)
    requires Operator(w).Some?
    ensures |w| == 1 || w == "=="
    ensures !IsSpace(w[0]) && w[0] != '"' && !IsWordChar(w[0])
  {
  }

  /** Two characters are tried before one, so `==` is one EQ token and never two ASSIGNs. */
  lemma EqualsIsOneToken(s: string, i: nat, line: nat)
    requires i + 2 <= |s| && s[i..i + 2] == "=="
    ensures ScanOne(s, i, line) == Ok((Some(TextToken(Op(EQ), "==", line)), i + 2))
  {
    assert s[i] == '=';
  }

  /** A character that starts no lexeme is an error exactly when it is neither whitespace, a
      quote, a digit, a word start nor an operator. */
  lemma UnknownCharacterRule(s: string, i: nat, line: nat)
    requires i < |s|
    ensures ScanOne(s, i, line) == Err(UnknownCharacter(s[i], line))
            <==> !IsSpace(s[i]) && s[i] != '"' && !IsDigit(s[i]) && !IsWordStart(s[i])
                 && Operator([s[i]]).None?
  {
    assert s[i..i + 1] == [s[i]];
    if s[i] == '=' {
      assert [s[i]] == "=";
    }
    if i + 2 <= |s| {
      assert s[i..i + 2][0] == s[i];
      if Operator(s[i..i + 2]).Some? {
        OperatorShapes(s[i..i + 2]);
      }
    }
  }

  // ---------------------------------------------------------------------------
  // The token stream

  /** The number of tokens of kind `k` in `ts`. */
  function Count(ts: seq<Token>, k: Kind): (n: nat)
    ensures n <= |ts|
  {
    if ts == [] then 0 else Count(ts[..|ts| - 1], k) + (if ts[|ts| - 1].kind == k then 1 else 0)
  }

  lemma {:induction false} CountConcat(a: seq<Token>, b: seq<Token>, k: Kind)
    ensures Count(a + b, k) == Count(a, k) + Count(b, k)
    decreases |b|
  {
    if b == [] {
      assert a + b == a;
    } else {
      CountConcat(a, b[..|b| - 1], k);
      assert (a + b)[..|a + b| - 1] == a + b[..|b| - 1];
    }
  }

  /** How many blocks are open after `ts`: INDENT tokens minus DEDENT tokens. */
  function Depth(ts: seq<Token>): int
  {
    Count(ts, INDENT) - Count(ts, DEDENT)
  }

  /** Neither `ts` nor any of its prefixes has a depth below `m`. */
  predicate Floor(ts: seq<Token>, m: int)
    decreases |ts|
  {
    Depth(ts) >= m && (ts == [] || Floor(ts[..|ts| - 1], m))
  }

  lemma {:induction false} FloorPrefixes(ts: seq<Token>, m: int)
    requires Floor(ts, m)
    ensures forall n :: 0 <= n <= |ts| ==> Depth(ts[..n]) >= m
    decreases |ts|
  {
    if ts != [] {
      FloorPrefixes(ts[..|ts| - 1], m);
      forall n | 0 <= n <= |ts|
        ensures Depth(ts[..n]) >= m
      {
        if n < |ts| {
          assert ts[..n] == ts[..|ts| - 1][..n];
        } else {
          assert ts[..n] == ts;
        }
      }
    }
  }

  lemma {:induction false} FloorWeaker(ts: seq<Token>, m: int, m': int)
    requires Floor(ts, m) && m' <= m
    ensures Floor(ts, m')
    decreases |ts|
  {
    if ts != [] {
      FloorWeaker(ts[..|ts| - 1], m, m');
    }
  }

  /** Depth adds up over a concatenation, and so do the floors. */
  lemma {:induction false} FloorConcat(a: seq<Token>, b: seq<Token>, m: int)
    requires Floor(a, m) && Floor(b, m - Depth(a))
    ensures Floor(a + b, m) && Depth(a + b) == Depth(a) + Depth(b)
    decreases |b|
  {
    CountConcat(a, b, INDENT);
    CountConcat(a, b, DEDENT);
    if b == [] {
      assert a + b == a;
    } else {
      FloorConcat(a, b[..|b| - 1], m);
      assert (a + b)[..|a + b| - 1] == a + b[..|b| - 1];
    }
  }

  /** A token the scanner finds in the text of a line. */
  predicate Lexeme(t: Token)
  {
    t.kind != INDENT && t.kind != DEDENT && t.kind != EOF
  }

  /** Lexemes leave the depth alone. */
  lemma {:induction false} LexemesFlat(ts: seq<Token>)
    requires forall i :: 0 <= i < |ts| ==> Lexeme(ts[i])
    ensures Depth(ts) == 0 && Floor(ts, 0)
  {
    if ts != [] {
      LexemesFlat(ts[..|ts| - 1]);
    }
  }

  /** A run of `n` DEDENTs on line `line`. */
  lemma {:induction false} DedentsAre(n: nat, line: nat)
    ensures forall i :: 0 <= i < n ==> Dedents(n, line)[i] == TextToken(DEDENT, "", line)
  {
    if n > 0 {
      DedentsAre(n - 1, line);
    }
  }

  /** A run of `n` DEDENTs closes `n` blocks, one at a time. */
  lemma {:induction false} DedentsDepth(n: nat, line: nat)
    ensures Depth(Dedents(n, line)) == -(n as int) && Floor(Dedents(n, line), -(n as int))
  {
    if n == 0 {
      assert Dedents(n, line) == [];
    } else {
      var shorter := Dedents(n - 1, line);
      var m := -(n as int);
      DedentsDepth(n - 1, line);
      FloorWeaker(shorter, m + 1, m);
      DedentAppended(shorter, Dedents(n, line), m, line);
    }
  }

  /** A DEDENT appended to `ts` closes one block. */
  lemma DedentAppended(ts: seq<Token>, t: seq<Token>, m: int, line: nat)
    requires t == ts + [TextToken(DEDENT, "", line)]
    requires Floor(ts, m) && Depth(ts) - 1 >= m
    ensures Depth(t) == Depth(ts) - 1 && Floor(t, m)
  {
    assert t[..|ts|] == ts;
    assert Count(t, INDENT) == Count(ts, INDENT);
    assert Count(t, DEDENT) == Count(ts, DEDENT) + 1;
  }

  /** A single INDENT opens one block. */
  lemma OpeningDepth(line: nat)
    ensures Depth([TextToken(INDENT, "", line)]) == 1 && Floor([TextToken(INDENT, "", line)], 0)
  {
    assert [TextToken(INDENT, "", line)][..0] == [];
  }

  /** Every token `ScanOne` finds is a lexeme on the line being scanned. */
  lemma ScanOneLexeme(s: string, i: nat, line: nat)
    requires i < |s|
    ensures ScanOne(s, i, line).Ok? && ScanOne(s, i, line).value.0.Some?
            ==> Lexeme(ScanOne(s, i, line).value.0.value) && ScanOne(s, i, line).value.0.value.line == line
  {
  }

  /** Lexemes all on line `line`. */
  predicate LexemesOn(ts: seq<Token>, line: nat)
  {
    forall i :: 0 <= i < |ts| ==> Lexeme(ts[i]) && ts[i].line == line
  }

  /** Every token `Scan` finds is a lexeme on the line being scanned; its errors are an
      unterminated string or an unknown character. */
  lemma {:induction false} ScanLexemes(s: string, i: nat, line: nat)
    requires i <= |s|
    ensures Scan(s, i, line).Ok? ==> LexemesOn(Scan(s, i, line).value, line)
    ensures Scan(s, i, line).Err? ==> Scan(s, i, line).error.UnterminatedString? || Scan(s, i, line).error.UnknownCharacter?
    decreases |s| - i
  {
    if i < |s| {
      ScanOneLexeme(s, i, line);
      var r := ScanOne(s, i, line);
      if r.Ok? {
        ScanLexemes(s, r.value.1, line);
        if r.value.0.Some? && Scan(s, r.value.1, line).Ok? {
          var rest := Scan(s, r.value.1, line).value;
          assert Scan(s, i, line).value == [r.value.0.value] + rest;
          assert forall k :: 0 < k <= |rest| ==> ([r.value.0.value] + rest)[k] == rest[k - 1];
        }
      }
    }
  }

  /** Every token of `ts` is on a line from 1 to `line`, none of them is EOF, and line numbers
      never decrease from one token to the next. */
  predicate LinesUpTo(ts: seq<Token>, line: nat)
  {
    && (forall i :: 0 <= i < |ts| ==> ts[i].kind != EOF && 1 <= ts[i].line <= line)
    && (forall i :: 0 < i < |ts| ==> ts[i - 1].line <= ts[i].line)
  }

  /** Tokens on a later line may follow. */
  lemma LinesConcat(a: seq<Token>, b: seq<Token>, prev: nat, line: nat)
    requires LinesUpTo(a, prev) && prev <= line && 1 <= line
    requires forall i :: 0 <= i < |b| ==> b[i].kind != EOF && b[i].line == line
    ensures LinesUpTo(a + b, line)
  {
    assert forall i :: 0 <= i < |b| ==> (a + b)[|a| + i] == b[i];
  }

  /** The tokens `acc` emitted while the stack became `stack`: one block is open per level above
      the bottom, and no prefix closes more blocks than it opened. */
  predicate Open(stack: seq<nat>, acc: seq<Token>)
  {
    Depth(acc) == |stack| - 1 && Floor(acc, 0)
  }

  /** The layout tokens of a line keep the depth in step with the stack. */
  lemma LayoutOpen(stack: seq<nat>, acc: seq<Token>, indent: nat, line: nat)
    requires Rooted(stack) && Open(stack, acc)
    ensures Open(NewStack(stack, indent), LayoutTokens(stack, acc, indent, line))
  {
    LayoutIs(stack, acc, indent, line);
    var d := PopCount(stack, indent);
    var popped := stack[..|stack| - d];
    var opening := if indent > Last(popped) then [TextToken(INDENT, "", line)] else [];
    assert |NewStack(stack, indent)| == |stack| - d + |opening|;
    LayoutDepth(acc, opening, d, line);
  }

  /** An optional INDENT then `d` DEDENTs after `acc`, closing no more blocks than are open. */
  lemma LayoutDepth(acc: seq<Token>, opening: seq<Token>, d: nat, line: nat)
    requires Floor(acc, 0) && opening in {[], [TextToken(INDENT, "", line)]}
    requires d <= Depth(acc) + |opening|
    ensures Depth(acc + opening + Dedents(d, line)) == Depth(acc) + |opening| - d
    ensures Floor(acc + opening + Dedents(d, line), 0)
  {
    OpeningAppended(acc, opening, line);
    DedentsAppended(acc + opening, d, line);
  }

  /** An optional INDENT after `acc` opens as many blocks as it holds tokens. */
  lemma OpeningAppended(acc: seq<Token>, opening: seq<Token>, line: nat)
    requires Floor(acc, 0) && opening in {[], [TextToken(INDENT, "", line)]}
    ensures Depth(acc + opening) == Depth(acc) + |opening| && Floor(acc + opening, 0)
  {
    assert Depth(opening) == |opening| && Floor(opening, 0) by {
      OpeningDepth(line);
      if opening == [] {
        assert Count(opening, INDENT) == 0 && Count(opening, DEDENT) == 0;
      }
    }
    FloorConcat(acc, opening, 0);
  }

  /** `d` DEDENTs after `a` close `d` of its open blocks. */
  lemma DedentsAppended(a: seq<Token>, d: nat, line: nat)
    requires Floor(a, 0) && d <= Depth(a)
    ensures Depth(a + Dedents(d, line)) == Depth(a) - d && Floor(a + Dedents(d, line), 0)
  {
    var ds := Dedents(d, line);
    DedentsDepth(d, line);
    FloorWeaker(ds, -(d as int), 0 - Depth(a));
    FloorConcat(a, ds, 0);
  }

  /** The layout tokens of a line are on that line. */
  lemma LayoutLines(stack: seq<nat>, acc: seq<Token>, indent: nat, prev: nat, line: nat)
    requires Rooted(stack) && LinesUpTo(acc, prev) && prev <= line && 1 <= line
    ensures LinesUpTo(LayoutTokens(stack, acc, indent, line), line)
  {
    LayoutIs(stack, acc, indent, line);
    var d := PopCount(stack, indent);
    var opening := if indent > Last(stack[..|stack| - d]) then [TextToken(INDENT, "", line)] else [];
    LinesConcat(acc, opening, prev, line);
    DedentsAre(d, line);
    LinesConcat(acc + opening, Dedents(d, line), line, line);
  }

  /** One line, with the tab check that never fires taken out. */
  lemma LineStepIs(stack: seq<nat>, acc: seq<Token>, s: string, line: nat)
    requires Rooted(stack)
    ensures var indent := RunEnd(s, 0, IsIndentChar);
            LineStep(stack, acc, s, line)
            == Combine(NewStack(stack, indent), LayoutTokens(stack, acc, indent, line), Scan(s, ScanStart(s, indent), line))
  {
    TabCheckNeverFires(s, line);
  }

  /** What holds of the tokens `acc` emitted before the line after `line`, with stack `stack`. */
  predicate Emitted(stack: seq<nat>, acc: seq<Token>, line: nat)
  {
    Rooted(stack) && Open(stack, acc) && LinesUpTo(acc, line)
  }

  /** Lexemes after the layout tokens leave the same blocks open. */
  lemma OpenLexemes(stack: seq<nat>, laidOut: seq<Token>, ts: seq<Token>)
    requires Open(stack, laidOut) && forall i :: 0 <= i < |ts| ==> Lexeme(ts[i])
    ensures Open(stack, laidOut + ts)
  {
    var d := Depth(laidOut);
    LexemesFlat(ts);
    FloorWeaker(ts, 0, 0 - d);
    FloorConcat(laidOut, ts, 0);
  }

  /** A successful line keeps `Emitted`. */
  lemma LineStepKeeps(stack: seq<nat>, acc: seq<Token>, s: string, prev: nat, line: nat)
    requires Emitted(stack, acc, prev) && prev <= line && 1 <= line
    requires LineStep(stack, acc, s, line).Ok?
    ensures Emitted(LineStep(stack, acc, s, line).value.0, LineStep(stack, acc, s, line).value.1, line)
  {
    LineStepIs(stack, acc, s, line);
    var indent := RunEnd(s, 0, IsIndentChar);
    var start := ScanStart(s, indent);
    var stack' := NewStack(stack, indent);
    var laidOut := LayoutTokens(stack, acc, indent, line);
    assert Scan(s, start, line).Ok?;
    var ts := Scan(s, start, line).value;
    assert LineStep(stack, acc, s, line) == Ok((stack', laidOut + ts));
    ScanLexemes(s, start, line);
    assert LexemesOn(ts, line);
    LayoutOpen(stack, acc, indent, line);
    OpenLexemes(stack', laidOut, ts);
    assert LinesUpTo(laidOut + ts, line) by {
      LayoutLines(stack, acc, indent, prev, line);
      LinesConcat(laidOut, ts, line, line);
    }
  }

  /** What `tokenize` promises of its output, `last` being the number of the last line. */
  predicate WellFormed(ts: seq<Token>, last: nat)
  {
    && |ts| > 0 && ts[|ts| - 1] == Tok(EOF, NoValue, last)
    && Depth(ts) == 0 && Floor(ts, 0)
    && LinesUpTo(ts[..|ts| - 1], last) && 1 <= last
  }

  /** The end of input closes every open block, then EOF. */
  lemma CloseKeeps(stack: seq<nat>, acc: seq<Token>, line: nat)
    requires Emitted(stack, acc, line) && 1 <= line
    ensures WellFormed(Close(stack, acc, line), line)
  {
    var ds := Dedents(|stack| - 1, line);
    var body := acc + ds;
    var ts := Close(stack, acc, line);
    assert ts == body + [Tok(EOF, NoValue, line)];
    DedentsAppended(acc, |stack| - 1, line);
    EofAppended(body, ts, line);
    assert LinesUpTo(body, line) by {
      DedentsAre(|stack| - 1, line);
      LinesConcat(acc, ds, line, line);
    }
  }

  /** The EOF token after `body` leaves the depth alone. */
  lemma EofAppended(body: seq<Token>, ts: seq<Token>, line: nat)
    requires ts == body + [Tok(EOF, NoValue, line)]
    requires Floor(body, 0) && Depth(body) == 0
    ensures ts[..|ts| - 1] == body && Depth(ts) == 0 && Floor(ts, 0)
  {
    assert ts[..|ts| - 1] == body;
    assert Count(ts, INDENT) == Count(body, INDENT);
    assert Count(ts, DEDENT) == Count(body, DEDENT);
  }

  /** Every line keeps `Emitted`, so the output of the remaining lines is well formed. */
  lemma {:induction false} LexLinesWellFormed(lines: seq<string>, k: nat, stack: seq<nat>, acc: seq<Token>, line: nat)
    requires k <= |lines| && Emitted(stack, acc, line)
    requires line == if k == 0 then 1 else k
    requires LexLines(lines, k, stack, acc, line).Ok?
    ensures WellFormed(LexLines(lines, k, stack, acc, line).value, if |lines| == 0 then 1 else |lines|)
    decreases |lines| - k
  {
    if k == |lines| {
      CloseKeeps(stack, acc, line);
    } else {
      var stack', acc' := LexLinesNextLine(lines, k, stack, acc, line);
      LexLinesWellFormed(lines, k + 1, stack', acc', k + 1);
    }
  }

  /** One line of `LexLines` that succeeds keeps `Emitted`. */
  lemma LexLinesNextLine(lines: seq<string>, k: nat, stack: seq<nat>, acc: seq<Token>, line: nat)
    returns (stack': seq<nat>, acc': seq<Token>)
    requires k < |lines| && Emitted(stack, acc, line) && line <= k + 1
    requires LexLines(lines, k, stack, acc, line).Ok?
    ensures Emitted(stack', acc', k + 1)
    ensures LexLines(lines, k + 1, stack', acc', k + 1) == LexLines(lines, k, stack, acc, line)
  {
    LexLinesStep(lines, k, stack, acc, line);
    LineStepKeeps(stack, acc, lines[k], line, k + 1);
    stack', acc' := LineStep(stack, acc, lines[k], k + 1).value.0, LineStep(stack, acc, lines[k], k + 1).value.1;
  }

  /** What `WellFormed` says, token by token. */
  lemma WellFormedMeans(ts: seq<Token>, last: nat)
    requires WellFormed(ts, last)
    ensures |ts| > 0 && ts[|ts| - 1] == Tok(EOF, NoValue, last)
    ensures forall i :: 0 <= i < |ts| - 1 ==> ts[i].kind != EOF && 1 <= ts[i].line <= last
    ensures forall i :: 0 < i < |ts| ==> ts[i - 1].line <= ts[i].line
    ensures Count(ts, INDENT) == Count(ts, DEDENT)
    ensures forall n :: 0 <= n <= |ts| ==> Count(ts[..n], DEDENT) <= Count(ts[..n], INDENT)
  {
    FloorPrefixes(ts, 0);
    var body := ts[..|ts| - 1];
    assert forall i :: 0 <= i < |body| ==> body[i] == ts[i];
  }

  /** The token stream of a program (lexer.py:28-132) ends with exactly one EOF, whose value
      is None and whose line is the last line; INDENTs and DEDENTs balance and no prefix has
      more DEDENTs than INDENTs; every token carries a line number from 1 on, in order. */
  lemma TokenizeWellFormed(code: string)
    requires Tokenize(code).Ok?
    ensures var ts := Tokenize(code).value;
            var last := if |SplitLines(code)| == 0 then 1 else |SplitLines(code)|;
            && |ts| > 0 && ts[|ts| - 1] == Tok(EOF, NoValue, last)
            && (forall i :: 0 <= i < |ts| - 1 ==> ts[i].kind != EOF && 1 <= ts[i].line <= last)
            && (forall i :: 0 < i < |ts| ==> ts[i - 1].line <= ts[i].line)
            && Count(ts, INDENT) == Count(ts, DEDENT)
            && (forall n :: 0 <= n <= |ts| ==> Count(ts[..n], DEDENT) <= Count(ts[..n], INDENT))
  {
    var last := if |SplitLines(code)| == 0 then 1 else |SplitLines(code)|;
    assert Emitted([0], [], 1);
    LexLinesWellFormed(SplitLines(code), 0, [0], [], 1);
    WellFormedMeans(Tokenize(code).value, last);
  }

  /** Lexing fails only on an unterminated string or an unknown character, never on a tab. */
  lemma {:induction false} LexLinesErrors(lines: seq<string>, k: nat, stack: seq<nat>, acc: seq<Token>, line: nat)
    requires k <= |lines| && Rooted(stack)
    ensures LexLines(lines, k, stack, acc, line).Err?
            ==> LexLines(lines, k, stack, acc, line).error.UnterminatedString?
                || LexLines(lines, k, stack, acc, line).error.UnknownCharacter?
    decreases |lines| - k
  {
    if k < |lines| {
      LexLinesStep(lines, k, stack, acc, line);
      LineStepIs(stack, acc, lines[k], k + 1);
      var indent := RunEnd(lines[k], 0, IsIndentChar);
      ScanLexemes(lines[k], ScanStart(lines[k], indent), k + 1);
      var r := LineStep(stack, acc, lines[k], k + 1);
      if r.Ok? {
        LexLinesErrors(lines, k + 1, r.value.0, r.value.1, k + 1);
      }
    }
  }

  lemma TokenizeErrors(code: string)
    ensures Tokenize(code).Err? ==> !Tokenize(code).error.TabIndent?
  {
    LexLinesErrors(SplitLines(code), 0, [0], [], 1);
  }
}
