/** Properties of the whole pipeline, from the characters of a line through the lexer and the
    parser to the interpreter. They join the rule the lexer applies to a word with the rule
    the parser applies to the token it becomes. */
module Pipeline {
  import opened Results
  import opened Tokens
  import opened Lexing
  import opened Ast
  import opened Parsing
  import opened Interpreting
  import LexerProps
  import ParserProps
  import InterpreterProps

  /** The lexer turns the word `w`, standing alone at index `i`, into a keyword token with the
      word as its text. */
  lemma ScansKeyword(s: string, i: nat, line: nat, w: string, k: KeywordKind)
    requires 0 < |w| && i + |w| <= |s| && s[i..i + |w|] == w
    requires IsWordStart(w[0]) && forall c :: 0 <= c < |w| ==> IsWordChar(w[c])
    requires i + |w| == |s| || !IsWordChar(s[i + |w|])
    requires Keyword(w) == Some(k)
    ensures ScanOne(s, i, line) == Ok((Some(TextToken(Kw(k), w, line)), i + |w|))
  {
    assert s[i] == w[0];
    forall c | i <= c < i + |w|
      ensures IsWordChar(s[c])
    {
      assert s[c] == w[c - i];
    }
    LexerProps.RunEndIs(s, i, IsWordChar, i + |w|);
  }

  /** Both boolean words of the language read as false. The lexer keeps the word's own text
      ("True" or "False") on the keyword token, while the parser takes a boolean literal to be
      true only when that text is "TRUE", which no word produces. */
  lemma BooleanWordsReadAsFalse(s: string, i: nat, line: nat, w: string, ts: seq<Token>, pos: nat)
    requires w == "True" || w == "False"
    requires i + |w| <= |s| && s[i..i + |w|] == w
    requires i + |w| == |s| || !IsWordChar(s[i + |w|])
    requires pos < |ts| && ScanOne(s, i, line).Ok? && ScanOne(s, i, line).value.0 == Some(ts[pos])
    ensures ts[pos].kind == Kw(if w == "True" then TRUE else FALSE) && ts[pos].value == Text(w)
    ensures Term(ts, pos) == Ok((Literal(LBool(false)), pos + 1))
  {
    var k := if w == "True" then TRUE else FALSE;
    ScansKeyword(s, i, line, w, k);
    ParserProps.BooleanLiteral(ts, pos);
  }

  /** So the then-block of `if (True):` never runs: the tokens of `if (True): block`, with
      no elif or else after the block, parse to an `if` on the literal false, which finishes
      normally with the state unchanged. */
  lemma TrueConditionSkipsThen(s: string, i: nat, line: nat, ts: seq<Token>, pos: nat, st: State,
                               fuel: nat)
    requires i + 4 <= |s| && s[i..i + 4] == "True" && (i + 4 == |s| || !IsWordChar(s[i + 4]))
    requires pos + 5 <= |ts| && ScanOne(s, i, line).Ok? && ScanOne(s, i, line).value.0 == Some(ts[pos + 2])
    requires ts[pos].kind == Kw(IF) && ts[pos + 1].kind == Op(LPAREN)
    requires ts[pos + 3].kind == Op(RPAREN) && ts[pos + 4].kind == Op(COLON)
    requires Block(ts, pos + 5).Ok?
    requires !At(ts, Block(ts, pos + 5).value.1, Kw(ELIF)) && !At(ts, Block(ts, pos + 5).value.1, Kw(ELSE))
    requires |st.frames| > 0
    ensures var (b, q) := Block(ts, pos + 5).value;
            && IfStatement(ts, pos) == Ok((If(Literal(LBool(false)), b, [], NoElse), q))
            && Exec(If(Literal(LBool(false)), b, [], NoElse), st, fuel) == (Normal, st)
  {
    BooleanWordsReadAsFalse(s, i, line, "True", ts, pos + 2);
    ParserProps.TermExpression(ts, pos + 2, Literal(LBool(false)), pos + 3);
    ParserProps.IfWithoutElse(ts, pos, Literal(LBool(false)), pos + 3);
    InterpreterProps.FalseConditionSkips(Block(ts, pos + 5).value.0, st, fuel);
  }

  /** The builtin bound to `range` in the global scope can never be called: the word `range`
      always lexes as the keyword RANGE, never as an identifier, and neither an expression
      nor a statement can begin with that keyword, so no call to it can be parsed. */
  lemma RangeIsNeverCalled(s: string, i: nat, line: nat, ts: seq<Token>, pos: nat)
    requires i + 5 <= |s| && s[i..i + 5] == "range"
    requires i + 5 == |s| || !IsWordChar(s[i + 5])
    requires pos < |ts| && ScanOne(s, i, line).Ok? && ScanOne(s, i, line).value.0 == Some(ts[pos])
    ensures ts[pos].kind == Kw(RANGE)
    ensures Expression(ts, pos).Err? && Statement(ts, pos).Err?
    ensures "range" in Globals() && Globals()["range"] == VBuiltin(Range)
  {
    LexerProps.RangeIsKeyword(s, i, line);
    ParserProps.RangeStartsNoExpression(ts, pos);
  }
}
