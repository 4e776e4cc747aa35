/** Tokens of the FFling language (lexer.py:3-10). */
module Tokens {

  /** The kinds of the keywords (lexer.py:77-109). */
  datatype KeywordKind =
    | LOCAL | PRINTLINE | PRINTLINEF | IMPORT | FOR | IN | RANGE | IF | ELIF | ELSE
    | WHILE | BREAK | CONTINUE | FUNC | RETURN | TRUE | FALSE | TABLE | AND | OR | NOT
    | PASS | CONST | TRY | CATCH | CLASS | NEW | THIS | NULL | NIL | ASSERT

  /** The kinds of the operators and punctuation (lexer.py:114). */
  datatype OperatorKind =
    | ASSIGN | EQ | GT | LT | PLUS | MINUS | MUL | DIV | MOD | LPAREN | RPAREN | COLON
    | COMMA | LBRACKET | RBRACKET | LSQUARE | RSQUARE | DOT

  /** The closed set of token kinds; the parser and the AST use them as operator names too. */
  datatype Kind =
    | NUMBER | STRING | IDENTIFIER | Kw(kw: KeywordKind) | Op(op: OperatorKind)
    | INDENT | DEDENT | EOF

  /** The literal value of a token: its text, the integer of a digit run, or Python's None. */
  datatype Payload = Text(text: string) | Num(num: nat) | NoValue

  datatype TokenData = Tok(kind: Kind, value: Payload, line: nat)

  /** A NUMBER token carries an integer, EOF carries None, every other token carries its text. */
  predicate Fits(t: TokenData) {
    if t.kind == NUMBER then t.value.Num?
    else if t.kind == EOF then t.value.NoValue?
    else t.value.Text?
  }

  type Token = t: TokenData | Fits(t) witness Tok(EOF, NoValue, 1)
}

/** The indentation-sensitive lexer (lexer.py:12-140): a functional specification of
    `tokenize`, and the `Lexer` class whose loops are proved to compute it. */
module Lexing {
  import opened Results
  import opened Tokens

  datatype LexError =
    | TabIndent(line: nat)
    | UnterminatedString(line: nat)
    | UnknownCharacter(c: char, line: nat)

  // ---------------------------------------------------------------------------
  // Character classes

  /** Python's `str.isspace` on one character. */
  predicate IsSpace(c: char) {
    c == ' ' || '\t' <= c <= '\r' || '\U{1C}' <= c <= '\U{1F}' || c == '\U{85}' || c == '\U{A0}'
    || c == '\U{1680}' || '\U{2000}' <= c <= '\U{200A}' || c == '\U{2028}' || c == '\U{2029}'
    || c == '\U{202F}' || c == '\U{205F}' || c == '\U{3000}'
  }

  predicate IsDigit(c: char) {
    '0' <= c <= '9'
  }

  predicate IsAlpha(c: char) {
    'a' <= c <= 'z' || 'A' <= c <= 'Z'
  }

  predicate IsWordStart(c: char) {
    IsAlpha(c) || c == '_'
  }

  predicate IsWordChar(c: char) {
    IsAlpha(c) || IsDigit(c) || c == '_'
  }

  /** Characters counted as indentation: whitespace other than a tab (lexer.py:136). */
  predicate IsIndentChar(c: char) {
    IsSpace(c) && c != '\t'
  }

  predicate NotQuote(c: char) {
    c != '"'
  }

  /** The line boundaries of Python's `str.splitlines`. */
  predicate IsLineBreak(c: char) {
    c == '\n' || c == '\r' || c == '\U{0B}' || c == '\U{0C}' || '\U{1C}' <= c <= '\U{1E}'
    || c == '\U{85}' || c == '\U{2028}' || c == '\U{2029}'
  }

  predicate NotLineBreak(c: char) {
    !IsLineBreak(c)
  }

  /** The index where the run of characters satisfying `p` that starts at `s[i]` ends: the
      first index from `i` on whose character fails `p`, or `|s|`. */
  function RunEnd(s: string, i: nat, p: char -> bool): (j: nat)
    requires i <= |s|
    ensures i <= j <= |s|
    decreases |s| - i
  {
    if i == |s| || !p(s[i]) then i else RunEnd(s, i + 1, p)
  }

  /** Every character of the run satisfies `p`, and the one after it, if any, does not. */
  lemma {:induction false} RunEndSpec(s: string, i: nat, p: char -> bool)
    requires i <= |s|
    ensures forall k :: i <= k < RunEnd(s, i, p) ==> p(s[k])
    ensures RunEnd(s, i, p) < |s| ==> !p(s[RunEnd(s, i, p)])
    decreases |s| - i
  {
    if i < |s| && p(s[i]) {
      RunEndSpec(s, i + 1, p);
    }
  }

  // ---------------------------------------------------------------------------
  // Tables (lexer.py:77-109 and lexer.py:114)

  /** Kinds of tokens whose value is their text. */
  type TextKind = k: Kind | k != NUMBER && k != EOF witness IDENTIFIER

  /** Kinds the scanner finds in the text of a line: not the layout kinds INDENT and DEDENT. */
  type LexemeKind = k: TextKind | k != INDENT && k != DEDENT witness IDENTIFIER

  /** The keyword table (lexer.py:77-109): the kind of a keyword, or None for any other word. */
  function Keyword(w: string): Option<KeywordKind>
  {
    match w
    case "local" => Some(LOCAL)
    case "printline" => Some(PRINTLINE)
    case "printlinef" => Some(PRINTLINEF)
    case "import" => Some(IMPORT)
    case "for" => Some(FOR)
    case "in" => Some(IN)
    case "range" => Some(RANGE)
    case "if" => Some(IF)
    case "elif" => Some(ELIF)
    case "else" => Some(ELSE)
    case "while" => Some(WHILE)
    case "break" => Some(BREAK)
    case "continue" => Some(CONTINUE)
    case "func" => Some(FUNC)
    case "return" => Some(RETURN)
    case "True" => Some(TRUE)
    case "False" => Some(FALSE)
    case "table" => Some(TABLE)
    case "and" => Some(AND)
    case "or" => Some(OR)
    case "not" => Some(NOT)
    case "pass" => Some(PASS)
    case "const" => Some(CONST)
    case "try" => Some(TRY)
    case "catch" => Some(CATCH)
    case "class" => Some(CLASS)
    case "new" => Some(NEW)
    case "this" => Some(THIS)
    case "null" => Some(NULL)
    case "nil" => Some(NIL)
    case "assert" => Some(ASSERT)
    case _ => None
  }

  /** The operator table (lexer.py:114): the kind of an operator, or None. */
  function Operator(w: string): Option<OperatorKind>
  {
    match w
    case "=" => Some(ASSIGN)
    case "==" => Some(EQ)
    case ">" => Some(GT)
    case "<" => Some(LT)
    case "+" => Some(PLUS)
    case "-" => Some(MINUS)
    case "*" => Some(MUL)
    case "/" => Some(DIV)
    case "%" => Some(MOD)
    case "(" => Some(LPAREN)
    case ")" => Some(RPAREN)
    case ":" => Some(COLON)
    case "," => Some(COMMA)
    case "{" => Some(LBRACKET)
    case "}" => Some(RBRACKET)
    case "[" => Some(LSQUARE)
    case "]" => Some(RSQUARE)
    case "." => Some(DOT)
    case _ => None
  }

  /** The kind of an identifier-shaped word: its keyword kind, else IDENTIFIER (lexer.py:110). */
  function WordKind(w: string): LexemeKind
  {
    match Keyword(w)
    case Some(k) => Kw(k)
    case None => IDENTIFIER
  }

  function TextToken(k: TextKind, text: string, line: nat): Token
  {
    Tok(k, Text(text), line)
  }

  function NumberToken(n: nat, line: nat): Token
  {
    Tok(NUMBER, Num(n), line)
  }

  // ---------------------------------------------------------------------------
  // Lines and indentation

  /** `code.splitlines(keepends=True)` with each piece stripped of trailing '\r' and '\n'
      (lexer.py:29,32): those boundaries disappear, the other boundary characters stay. */
  function SplitLines(code: string): (lines: seq<string>)
    ensures lines == [] <==> code == []
    ensures forall l :: l in lines ==> '\n' !in l && '\r' !in l
    decreases |code|
  {
    if code == [] then []
    else
      var j := RunEnd(code, 0, NotLineBreak);
      RunEndSpec(code, 0, NotLineBreak);
      if j == |code| then [code]
      else
        var width := if code[j] == '\r' && j + 1 < |code| && code[j + 1] == '\n' then 2 else 1;
        var kept := if code[j] == '\n' || code[j] == '\r' then [] else [code[j]];
        [code[..j] + kept] + SplitLines(code[j + width..])
  }

  /** `get_indent_len` (lexer.py:134-140): the leading indentation width, with the tab check. */
  function IndentOf(s: string, line: nat): Result<nat, LexError>
  {
    var n := RunEnd(s, 0, IsIndentChar);
    if '\t' in s[..n] then Err(TabIndent(line)) else Ok(n)
  }

  /** An indentation stack has the outermost width 0 at its bottom. */
  predicate Rooted(stack: seq<nat>) {
    |stack| >= 1 && stack[0] == 0
  }

  /** The lexer's invariant on its stack of open indentation widths: rooted at 0 and strictly
      increasing upwards. */
  predicate Ascending(stack: seq<nat>) {
    Rooted(stack) && forall i, j :: 0 <= i < j < |stack| ==> stack[i] < stack[j]
  }

  function Last(stack: seq<nat>): nat
    requires |stack| > 0
  {
    stack[|stack| - 1]
  }

  /** The dedent loop (lexer.py:36-38): how many levels it pops off `stack`, the top ones
      deeper than `indent`. The bottom width 0 is never popped. */
  function PopCount(stack: seq<nat>, indent: nat): (d: nat)
    ensures d <= |stack|
    ensures Rooted(stack) ==> d < |stack|
    decreases |stack|
  {
    if |stack| == 0 || indent >= Last(stack) then 0
    else
      assert |stack| > 1 ==> stack[..|stack| - 1][0] == stack[0];
      1 + PopCount(stack[..|stack| - 1], indent)
  }

  /** `n` DEDENT tokens on line `line`. */
  function Dedents(n: nat, line: nat): (r: seq<Token>)
    ensures |r| == n
  {
    if n == 0 then [] else Dedents(n - 1, line) + [TextToken(DEDENT, "", line)]
  }

  /** One more DEDENT may as well go first. */
  lemma {:induction false} DedentsShift(k: nat, line: nat)
    ensures [TextToken(DEDENT, "", line)] + Dedents(k, line) == Dedents(k + 1, line)
  {
    if k > 0 {
      DedentsShift(k - 1, line);
      assert [TextToken(DEDENT, "", line)] + Dedents(k, line)
          == ([TextToken(DEDENT, "", line)] + Dedents(k - 1, line)) + [TextToken(DEDENT, "", line)];
    }
  }

  /** The indentation stack after a line of width `indent` (lexer.py:36-42): the deeper levels
      popped, and `indent` pushed if it is deeper than what is left. */
  function NewStack(stack: seq<nat>, indent: nat): (r: seq<nat>)
    requires Rooted(stack)
    ensures Rooted(r) && Last(r) == indent
  {
    var popped := stack[..|stack| - PopCount(stack, indent)];
    PopCountSpec(stack, indent);
    if indent > Last(popped) then popped + [indent] else popped
  }

  /** The tokens `acc` followed by the layout tokens of a line of width `indent`
      (lexer.py:40-45): an INDENT if the line opens a level, then one DEDENT per popped level. */
  function LayoutTokens(stack: seq<nat>, acc: seq<Token>, indent: nat, line: nat): seq<Token>
    requires Rooted(stack)
  {
    var d := PopCount(stack, indent);
    var opening := if indent > Last(stack[..|stack| - d]) then [TextToken(INDENT, "", line)] else [];
    acc + opening + Dedents(d, line)
  }

  /** `NewStack` and `LayoutTokens` in terms of the levels kept by the dedent loop. */
  lemma LayoutIs(stack: seq<nat>, acc: seq<Token>, indent: nat, line: nat)
    requires Rooted(stack)
    ensures var popped := stack[..|stack| - PopCount(stack, indent)];
            && |popped| > 0
            && NewStack(stack, indent) == (if indent > Last(popped) then popped + [indent] else popped)
            && LayoutTokens(stack, acc, indent, line)
               == acc + (if indent > Last(popped) then [TextToken(INDENT, "", line)] else [])
                  + Dedents(PopCount(stack, indent), line)
  {
  }

  /** Every line keeps the indentation stack rooted at 0 and strictly increasing: the kept
      levels are a prefix of the old stack and a pushed width is deeper than all of them. */
  lemma NewStackAscending(stack: seq<nat>, indent: nat)
    requires Ascending(stack)
    ensures Ascending(NewStack(stack, indent))
  {
    LayoutIs(stack, [], indent, 1);
    var popped := stack[..|stack| - PopCount(stack, indent)];
    assert forall i :: 0 <= i < |popped| ==> popped[i] <= Last(popped);
  }

  /** The levels the dedent loop pops are exactly the top ones deeper than `indent`: each of
      them is deeper, and the level it stops at is not. */
  lemma {:induction false} PopCountSpec(stack: seq<nat>, indent: nat)
    ensures forall k :: |stack| - PopCount(stack, indent) <= k < |stack| ==> indent < stack[k]
    ensures PopCount(stack, indent) < |stack| ==> stack[|stack| - 1 - PopCount(stack, indent)] <= indent
    decreases |stack|
  {
    if |stack| > 0 && indent < Last(stack) {
      PopCountSpec(stack[..|stack| - 1], indent);
    }
  }

  // ---------------------------------------------------------------------------
  // Scanning the rest of a line (lexer.py:49-125)

  /** `pre` followed by the tokens of `r`, or the error of `r`. */
  function Attach(pre: seq<Token>, r: Result<seq<Token>, LexError>): Result<seq<Token>, LexError>
  {
    match r
    case Ok(ts) => Ok(pre + ts)
    case Err(e) => Err(e)
  }

  lemma AttachTwice(a: seq<Token>, b: seq<Token>, r: Result<seq<Token>, LexError>)
    ensures Attach(a, Attach(b, r)) == Attach(a + b, r)
  {
    if r.Ok? {
      assert a + (b + r.value) == (a + b) + r.value;
    }
  }

  /** The value of a run of decimal digits, as Python's `int` computes it. */
  function DecimalValue(digits: string): nat
    requires forall k :: 0 <= k < |digits| ==> IsDigit(digits[k])
  {
    if digits == [] then 0
    else
      assert IsDigit(digits[|digits| - 1]);
      10 * DecimalValue(digits[..|digits| - 1]) + (digits[|digits| - 1] as int - '0' as int)
  }

  /** A string literal opened by the quote at `s[i]` (lexer.py:54-64): the text up to the next
      quote, which must exist. */
  function StringStep(s: string, i: nat, line: nat): (r: Result<(Option<Token>, nat), LexError>)
    requires i < |s|
    ensures r.Ok? ==> i < r.value.1 <= |s|
  {
    var j := RunEnd(s, i + 1, NotQuote);
    if j == |s| then Err(UnterminatedString(line))
    else Ok((Some(TextToken(STRING, s[i + 1..j], line)), j + 1))
  }

  /** A run of digits starting at `s[i]` (lexer.py:65-71), read as a decimal number. */
  function NumberStep(s: string, i: nat, line: nat): (r: Result<(Option<Token>, nat), LexError>)
    requires i < |s| && IsDigit(s[i])
    ensures r.Ok? && i < r.value.1 <= |s|
  {
    var j := RunEnd(s, i, IsDigit);
    RunEndSpec(s, i, IsDigit);
    Ok((Some(NumberToken(DecimalValue(s[i..j]), line)), j))
  }

  /** A word starting at `s[i]` (lexer.py:72-112): a keyword or an identifier. */
  function WordStep(s: string, i: nat, line: nat): (r: Result<(Option<Token>, nat), LexError>)
    requires i < |s| && IsWordStart(s[i])
    ensures r.Ok? && i < r.value.1 <= |s|
  {
    var j := RunEnd(s, i, IsWordChar);
    Ok((Some(TextToken(WordKind(s[i..j]), s[i..j], line)), j))
  }

  /** An operator at `s[i]`, two characters tried before one (lexer.py:114-125). */
  function OperatorStep(s: string, i: nat, line: nat): (r: Result<(Option<Token>, nat), LexError>)
    requires i < |s|
    ensures r.Ok? ==> i < r.value.1 <= |s|
  {
    if i + 2 <= |s| && Operator(s[i..i + 2]).Some? then
      Ok((Some(TextToken(Op(Operator(s[i..i + 2]).value), s[i..i + 2], line)), i + 2))
    else if Operator(s[i..i + 1]).Some? then
      Ok((Some(TextToken(Op(Operator(s[i..i + 1]).value), s[i..i + 1], line)), i + 1))
    else Err(UnknownCharacter(s[i], line))
  }

  /** One pass of the scanning loop (lexer.py:50-125) at index `i` of a line: the token found,
      if any, and the index where scanning resumes. */
  function ScanOne(s: string, i: nat, line: nat): (r: Result<(Option<Token>, nat), LexError>)
    requires i < |s|
    ensures r.Ok? ==> i < r.value.1 <= |s|
  {
    if IsSpace(s[i]) then Ok((None, i + 1))
    else if s[i] == '"' then StringStep(s, i, line)
    else if IsDigit(s[i]) then NumberStep(s, i, line)
    else if IsWordStart(s[i]) then WordStep(s, i, line)
    else OperatorStep(s, i, line)
  }

  /** The tokens of line `s` from index `i` on, or the first error there. */
  function Scan(s: string, i: nat, line: nat): Result<seq<Token>, LexError>
    requires i <= |s|
    decreases |s| - i
  {
    if i == |s| then Ok([])
    else
      match ScanOne(s, i, line)
      case Err(e) => Err(e)
      case Ok((None, j)) => Scan(s, j, line)
      case Ok((Some(t), j)) => Attach([t], Scan(s, j, line))
  }

  // ---------------------------------------------------------------------------
  // The whole token stream (lexer.py:28-132)

  /** Where the scan of a line starts (lexer.py:48): past the indentation, and past one more
      space if one followed it. */
  function ScanStart(s: string, indent: nat): (p: nat)
    requires indent <= |s|
    ensures indent <= p <= |s|
  {
    indent + (if indent < |s| && s[indent] == ' ' then 1 else 0)
  }

  /** One line (lexer.py:31-125): the new indentation stack, and the tokens `acc` emitted
      before the line followed by the line's own. */
  function LineStep(stack: seq<nat>, acc: seq<Token>, s: string, line: nat)
    : (r: Result<(seq<nat>, seq<Token>), LexError>)
    requires Rooted(stack)
    ensures r.Ok? ==> Rooted(r.value.0)
  {
    match IndentOf(s, line)
    case Err(e) => Err(e)
    case Ok(indent) =>
      Combine(NewStack(stack, indent), LayoutTokens(stack, acc, indent, line), Scan(s, ScanStart(s, indent), line))
  }

  /** The new stack, and the tokens up to a line's layout followed by its scanned tokens; or
      the scan's error. */
  function Combine(stack: seq<nat>, laidOut: seq<Token>, scanned: Result<seq<Token>, LexError>)
    : Result<(seq<nat>, seq<Token>), LexError>
  {
    match scanned
    case Err(e) => Err(e)
    case Ok(ts) => Ok((stack, laidOut + ts))
  }

  /** The remaining work of `tokenize` from line index `k`, with indentation stack `stack`,
      the tokens `acc` emitted so far and `line` the number of the last line seen. */
  function LexLines(lines: seq<string>, k: nat, stack: seq<nat>, acc: seq<Token>, line: nat)
    : Result<seq<Token>, LexError>
    requires k <= |lines| && Rooted(stack)
    decreases |lines| - k
  {
    if k == |lines| then Ok(Close(stack, acc, line))
    else
      match LineStep(stack, acc, lines[k], k + 1)
      case Err(e) => Err(e)
      case Ok((stack', acc')) => LexLines(lines, k + 1, stack', acc', k + 1)
  }

  lemma LexLinesStep(lines: seq<string>, k: nat, stack: seq<nat>, acc: seq<Token>, line: nat)
    requires k < |lines| && Rooted(stack)
    ensures LexLines(lines, k, stack, acc, line)
            == match LineStep(stack, acc, lines[k], k + 1)
               case Err(e) => Err(e)
               case Ok((stack', acc')) => LexLines(lines, k + 1, stack', acc', k + 1)
  {
  }

  /** End of input (lexer.py:128-131): one DEDENT per open level, then EOF. */
  function Close(stack: seq<nat>, acc: seq<Token>, line: nat): seq<Token>
    requires |stack| >= 1
  {
    acc + Dedents(|stack| - 1, line) + [Tok(EOF, NoValue, line)]
  }

  lemma CloseStep(stack: seq<nat>, acc: seq<Token>, line: nat)
    requires |stack| > 1
    ensures Close(stack[..|stack| - 1], acc + [TextToken(DEDENT, "", line)], line) == Close(stack, acc, line)
  {
    DedentsShift(|stack| - 2, line);
    assert acc + [TextToken(DEDENT, "", line)] + Dedents(|stack| - 2, line)
        == acc + ([TextToken(DEDENT, "", line)] + Dedents(|stack| - 2, line));
  }

  /** `Lexer(code).tokenize()`. */
  function Tokenize(code: string): Result<seq<Token>, LexError>
  {
    LexLines(SplitLines(code), 0, [0], [], 1)
  }

  // ---------------------------------------------------------------------------
  // The Lexer class

  class Lexer {
    const code: string
    var line: nat
    var tokens: seq<Token>
    var indentStack: seq<nat>

    /** The indentation stack is rooted at 0 and strictly increasing (lexer.py:18, 36-42). */
    ghost predicate Valid()
      reads this
    {
      Ascending(indentStack)
    }

    constructor(code: string)
      ensures Valid()
      ensures this.code == code && line == 1 && tokens == [] && indentStack == [0]
    {
      this.code := code;
      line := 1;
      tokens := [];
      indentStack := [0];
    }

    /** `get_indent_len` (lexer.py:134-140): count leading indentation characters, then check
        for a tab. */
    method GetIndentLen(s: string) returns (r: Result<nat, LexError>)
      ensures r == IndentOf(s, line)
    {
      var i := ScanRun(s, 0, IsIndentChar);
      if '\t' in s[..i] {
        return Err(TabIndent(line));
      }
      return Ok(i);
    }

    /** The layout part of one line: the dedent loop, the INDENT push and the DEDENTs. */
    method OpenLine(indent: nat)
      requires Valid()
      modifies this`indentStack, this`tokens
      ensures Valid()
      ensures indentStack == NewStack(old(indentStack), indent)
      ensures tokens == LayoutTokens(old(indentStack), old(tokens), indent, line)
    {
      NewStackAscending(indentStack, indent);
      LayoutIs(indentStack, tokens, indent, line);
      var dedents := PopLevels(indent);
      var opening := PushLevel(indent);
      tokens := tokens + opening;
      AppendDedents(dedents);
    }

    /** The dedent loop (lexer.py:36-38). */
    method PopLevels(indent: nat) returns (dedents: nat)
      modifies this`indentStack
      ensures dedents == PopCount(old(indentStack), indent)
      ensures indentStack == old(indentStack)[..|old(indentStack)| - dedents]
    {
      dedents := 0;
      while |indentStack| > 0 && indent < indentStack[|indentStack| - 1]
        invariant dedents <= |old(indentStack)| && indentStack == old(indentStack)[..|old(indentStack)| - dedents]
        invariant PopCount(old(indentStack), indent) == PopCount(indentStack, indent) + dedents
        decreases |indentStack|
      {
        indentStack := indentStack[..|indentStack| - 1];
        dedents := dedents + 1;
      }
    }

    /** The indent check (lexer.py:40-42): a deeper line opens a level, announced by INDENT. */
    method PushLevel(indent: nat) returns (opening: seq<Token>)
      requires |indentStack| > 0
      modifies this`indentStack
      ensures indent > Last(old(indentStack)) ==> indentStack == old(indentStack) + [indent] && opening == [TextToken(INDENT, "", line)]
      ensures indent <= Last(old(indentStack)) ==> indentStack == old(indentStack) && opening == []
    {
      opening := [];
      if indent > indentStack[|indentStack| - 1] {
        opening := [TextToken(INDENT, "", line)];
        indentStack := indentStack + [indent];
      }
    }

    /** Appends `n` DEDENT tokens (lexer.py:44-45). */
    method AppendDedents(n: nat)
      modifies this`tokens
      ensures tokens == old(tokens) + Dedents(n, line)
    {
      for d := 0 to n
        invariant tokens == old(tokens) + Dedents(d, line)
      {
        tokens := tokens + [TextToken(DEDENT, "", line)];
      }
    }

    /** The scanning loop over line `s` from index `start` (lexer.py:49-125), appending its
        tokens. */
    method ScanLine(s: string, start: nat) returns (r: Result<(), LexError>)
      requires start <= |s|
      modifies this`tokens
      ensures match Scan(s, start, line)
              case Ok(ts) => r == Ok(()) && tokens == old(tokens) + ts
              case Err(e) => r == Err(e)
    {
      var i := start;
      var emitted: seq<Token> := [];
      assert Scan(s, start, line).Ok? ==> [] + Scan(s, start, line).value == Scan(s, start, line).value;
      while i < |s|
        invariant start <= i <= |s|
        invariant tokens == old(tokens) + emitted
        invariant Scan(s, start, line) == Attach(emitted, Scan(s, i, line))
        decreases |s| - i
      {
        var step := ScanAt(s, i);
        if step.Err? {
          return Err(step.error);
        }
        var (found, next) := step.value;
        if found.Some? {
          AttachTwice(emitted, [found.value], Scan(s, next, line));
          tokens := tokens + [found.value];
          emitted := emitted + [found.value];
        }
        i := next;
      }
      assert Attach(emitted, Ok([])) == Ok(emitted + []);
      return Ok(());
    }

    /** One pass of the scanning loop's body at index `i`: the token found and where the scan
        resumes. */
    method ScanAt(s: string, i: nat) returns (r: Result<(Option<Token>, nat), LexError>)
      requires i < |s|
      ensures r == ScanOne(s, i, line)
    {
      var c := s[i];
      if IsSpace(c) {
        r := Ok((None, i + 1));
      } else if c == '"' {
        r := ScanString(s, i);
      } else if IsDigit(c) {
        r := ScanNumber(s, i);
      } else if IsAlpha(c) || c == '_' {
        r := ScanWord(s, i);
      } else {
        r := ScanOperator(s, i);
      }
    }

    /** A string literal opened by the quote at `s[i]` (lexer.py:54-64). */
    method ScanString(s: string, i: nat) returns (r: Result<(Option<Token>, nat), LexError>)
      requires i < |s|
      ensures r == StringStep(s, i, line)
    {
      var j := ScanRun(s, i + 1, NotQuote);
      if j >= |s| {
        return Err(UnterminatedString(line));
      }
      return Ok((Some(TextToken(STRING, s[i + 1..j], line)), j + 1));
    }

    /** A number starting with the digit at `s[i]` (lexer.py:65-71). */
    method ScanNumber(s: string, i: nat) returns (r: Result<(Option<Token>, nat), LexError>)
      requires i < |s| && IsDigit(s[i])
      ensures r == NumberStep(s, i, line)
    {
      var j := ScanRun(s, i, IsDigit);
      RunEndSpec(s, i, IsDigit);
      return Ok((Some(NumberToken(DecimalValue(s[i..j]), line)), j));
    }

    /** A keyword or identifier starting at `s[i]` (lexer.py:72-112). */
    method ScanWord(s: string, i: nat) returns (r: Result<(Option<Token>, nat), LexError>)
      requires i < |s| && IsWordStart(s[i])
      ensures r == WordStep(s, i, line)
    {
      var j := ScanRun(s, i, IsWordChar);
      return Ok((Some(TextToken(WordKind(s[i..j]), s[i..j], line)), j));
    }

    /** The operator lookup at `s[i]` (lexer.py:114-125). */
    method ScanOperator(s: string, i: nat) returns (r: Result<(Option<Token>, nat), LexError>)
      requires i < |s|
      ensures r == OperatorStep(s, i, line)
    {
      if i + 2 <= |s| && Operator(s[i..i + 2]).Some? {
        return Ok((Some(TextToken(Op(Operator(s[i..i + 2]).value), s[i..i + 2], line)), i + 2));
      }
      if Operator(s[i..i + 1]).Some? {
        return Ok((Some(TextToken(Op(Operator(s[i..i + 1]).value), s[i..i + 1], line)), i + 1));
      }
      return Err(UnknownCharacter(s[i], line));
    }

    /** The index where the run of `p`-characters from `s[i]` ends (the loops of
        lexer.py:57-58, 67-68, 74-75 and 136-137). */
    method ScanRun(s: string, i: nat, p: char -> bool) returns (j: nat)
      requires i <= |s|
      ensures j == RunEnd(s, i, p)
    {
      j := i;
      while j < |s| && p(s[j])
        invariant i <= j <= |s|
        invariant RunEnd(s, i, p) == RunEnd(s, j, p)
      {
        j := j + 1;
      }
    }

    /** One line of `tokenize`: its layout tokens, then its scanned tokens. */
    method LexLine(s: string) returns (r: Result<(), LexError>)
      requires Valid()
      modifies this`indentStack, this`tokens
      ensures Valid()
      ensures match LineStep(old(indentStack), old(tokens), s, line)
              case Ok((stack', acc')) => r == Ok(()) && indentStack == stack' && tokens == acc'
              case Err(e) => r == Err(e)
    {
      var indent :- GetIndentLen(s);
      OpenLine(indent);
      var i := indent + (if indent < |s| && s[indent] == ' ' then 1 else 0);
      r := ScanLine(s, i);
    }

    /** `tokenize` (lexer.py:28-132). */
    method Tokenize() returns (r: Result<seq<Token>, LexError>)
      requires Valid()
      modifies this
      ensures r == LexLines(SplitLines(code), 0, old(indentStack), old(tokens), old(line))
      ensures r.Ok? ==> tokens == r.value && indentStack == [0]
    {
      var lines := SplitLines(code);
      ghost var total := LexLines(lines, 0, indentStack, tokens, line);
      var k := 0;
      while k < |lines|
        invariant k <= |lines| && Valid()
        invariant LexLines(lines, k, indentStack, tokens, line) == total
      {
        var done := NextLine(lines, k);
        if done.Err? {
          return Err(done.error);
        }
        k := k + 1;
      }
      CloseAll();
      return Ok(tokens);
    }

    /** One iteration of the loop over lines (lexer.py:30-125), for the line at index `k`. */
    method NextLine(lines: seq<string>, k: nat) returns (r: Result<(), LexError>)
      requires k < |lines| && Valid()
      modifies this
      ensures r.Err? ==> LexLines(lines, k, old(indentStack), old(tokens), old(line)) == Err(r.error)
      ensures Valid()
      ensures r.Ok? ==> LexLines(lines, k, old(indentStack), old(tokens), old(line))
                                   == LexLines(lines, k + 1, indentStack, tokens, line)
    {
      LexLinesStep(lines, k, indentStack, tokens, line);
      line := k + 1;
      r := LexLine(lines[k]);
    }

    /** The end of `tokenize` (lexer.py:128-131): a DEDENT for every open level, then EOF. */
    method CloseAll()
      requires Valid()
      modifies this`indentStack, this`tokens
      ensures tokens == Close(old(indentStack), old(tokens), line) && indentStack == [0]
    {
      while |indentStack| > 1
        invariant Valid()
        invariant Close(indentStack, tokens, line) == Close(old(indentStack), old(tokens), line)
        decreases |indentStack|
      {
        CloseStep(indentStack, tokens, line);
        indentStack := indentStack[..|indentStack| - 1];
        tokens := tokens + [TextToken(DEDENT, "", line)];
      }
      assert indentStack == [0];
      tokens := tokens + [Tok(EOF, NoValue, line)];
    }
  }
}
