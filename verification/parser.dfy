/** The recursive-descent parser (parser_ll.py): a functional specification of each `parse_*`
    method over the token list and a cursor position, and the `Parser` class whose methods are
    proved to compute it. */
module Parsing {
  import opened Results
  import opened Tokens
  import opened Dicts
  import opened Ast

  /** Why parsing stopped. `Expected` is `expect`'s syntax error (parser_ll.py:241),
      `ExpressionExpected` the one of `parse_term` (parser_ll.py:223). `NoToken` is the failure
      of reading the kind of the current token once the cursor has run past the last token
      (an AttributeError on None in the source), and `NoTokens` the failure of building a
      parser over an empty token list (parser_ll.py:7). */
  datatype ParseError =
    | Expected(kind: Kind, got: Option<Token>)
    | ExpressionExpected(got: Option<Token>)
    | NoToken
    | NoTokens

  /** A parsed value with the position of the first token after it, or the error. */
  type Parsed<T> = Result<(T, nat), ParseError>

  // ---------------------------------------------------------------------------
  // The cursor

  /** `current_tok` at position `pos` (parser_ll.py:9-14): the token there, or None past the end. */
  function Cur(ts: seq<Token>, pos: nat): Option<Token>
  {
    if pos < |ts| then Some(ts[pos]) else None
  }

  /** The guarded test `self.current_tok and self.current_tok.type == k`. */
  predicate At(ts: seq<Token>, pos: nat, k: Kind)
  {
    pos < |ts| && ts[pos].kind == k
  }

  /** `expect(k)` (parser_ll.py:235-241): the current token and the next position if the
      current token has kind `k`, a syntax error naming `k` and the current token otherwise. */
  function ExpectAt(ts: seq<Token>, pos: nat, k: Kind): (r: Parsed<Token>)
    ensures r.Ok? <==> At(ts, pos, k)
    ensures r.Ok? ==> r.value.0 == ts[pos] && r.value.1 == pos + 1
    ensures r.Err? ==> r.error == Expected(k, Cur(ts, pos))
  {
    if At(ts, pos, k) then Ok((ts[pos], pos + 1)) else Err(Expected(k, Cur(ts, pos)))
  }

  /** The text of an IDENTIFIER or STRING token. */
  function TextOf(t: Token): string
    requires t.kind == IDENTIFIER || t.kind == STRING
  {
    t.value.text
  }

  predicate IsLogicOp(k: Kind)
  {
    k == Kw(AND) || k == Kw(OR)
  }

  /** The operators of the single binary level (parser_ll.py:193). */
  predicate IsBinaryOp(k: Kind)
  {
    k == Op(PLUS) || k == Op(MINUS) || k == Op(EQ) || k == Op(GT) || k == Op(LT)
    || k == Op(MUL) || k == Op(DIV) || k == Op(MOD)
  }

  // ---------------------------------------------------------------------------
  // Programs, statements and blocks. Each function is defined from the position of the current
  // token; a rule that calls another at the same position has the higher second component in
  // its `decreases` clause.

  /** `Parser(ts).parse()` (parser_ll.py:4-7, 19-24). */
  function ParseTokens(ts: seq<Token>): (r: Result<Program, ParseError>)
    ensures |ts| == 0 ==> r == Err(NoTokens)
    ensures |ts| > 0 && ts[0].kind == EOF ==> r == Ok(Program([]))
  {
    if |ts| == 0 then Err(NoTokens) else ProgramOf(Statements(ts, 0, []))
  }

  /** The program of parsed top-level statements. */
  function ProgramOf(r: Parsed<seq<Stmt>>): Result<Program, ParseError>
  {
    match r
    case Ok((stmts, _)) => Ok(Program(stmts))
    case Err(e) => Err(e)
  }

  /** The loop of `parse` (parser_ll.py:21-23): statements up to EOF or the end of the tokens,
      after the statements `acc` already parsed. */
  function Statements(ts: seq<Token>, pos: nat, acc: seq<Stmt>): (r: Parsed<seq<Stmt>>)
    requires pos <= |ts|
    ensures r.Ok? ==> pos <= r.value.1 <= |ts|
    decreases |ts| - pos, 20
  {
    if pos < |ts| && ts[pos].kind != EOF then
      var s :- Statement(ts, pos);
      Statements(ts, s.1, acc + [s.0])
    else Ok((acc, pos))
  }

  /** `parse_statement` (parser_ll.py:26-55): dispatch on the kind of the current token. */
  function Statement(ts: seq<Token>, pos: nat): (r: Parsed<Stmt>)
    requires pos < |ts|
    ensures r.Ok? ==> pos < r.value.1 <= |ts|
    decreases |ts| - pos, 19
  {
    var k := ts[pos].kind;
    if k == Kw(LOCAL) then AssignmentStatement(ts, pos)
    else if k == Kw(PRINTLINE) || k == Kw(PRINTLINEF) then PrintlineStatement(ts, pos)
    else if k == Kw(IF) then IfStatement(ts, pos)
    else if k == Kw(FOR) then ForStatement(ts, pos)
    else if k == Kw(WHILE) then WhileStatement(ts, pos)
    else if k == Kw(BREAK) then Ok((Break, pos + 1))
    else if k == Kw(CONTINUE) then Ok((Continue, pos + 1))
    else if k == Kw(FUNC) then FuncStatement(ts, pos)
    else if k == Kw(RETURN) then ReturnStatement(ts, pos)
    else if k == Kw(TABLE) then TableStatement(ts, pos)
    else if k == Kw(IMPORT) then ImportStatement(ts, pos)
    else
      var e :- Expression(ts, pos);
      Ok((ExprStmt(e.0), e.1))
  }

  /** `parse_assignment` (parser_ll.py:57-62): `local NAME = expr`. */
  function AssignmentStatement(ts: seq<Token>, pos: nat): (r: Parsed<Stmt>)
    requires pos <= |ts|
    ensures r.Ok? ==> pos < r.value.1 <= |ts|
    decreases |ts| - pos, 18
  {
    var local :- ExpectAt(ts, pos, Kw(LOCAL));
    var name :- ExpectAt(ts, local.1, IDENTIFIER);
    var assign :- ExpectAt(ts, name.1, Op(ASSIGN));
    var value :- Expression(ts, assign.1);
    Ok((Assignment(TextOf(name.0), value.0), value.1))
  }

  /** `parse_printline` (parser_ll.py:64-76): `printline(args)` or `printlinef(args)`. */
  function PrintlineStatement(ts: seq<Token>, pos: nat): (r: Parsed<Stmt>)
    requires pos <= |ts|
    ensures r.Ok? ==> pos < r.value.1 <= |ts|
    decreases |ts| - pos, 18
  {
    if pos == |ts| then Err(NoToken)
    else
      var start := if ts[pos].kind == Kw(PRINTLINE) || ts[pos].kind == Kw(PRINTLINEF) then pos + 1 else pos;
      var open :- ExpectAt(ts, start, Op(LPAREN));
      var args :- Args(ts, open.1, []);
      var close :- ExpectAt(ts, args.1, Op(RPAREN));
      Ok((Printline(args.0), close.1))
  }

  /** The argument loop of `parse_printline` and `parse_call` (parser_ll.py:71-74, 228-231):
      expressions up to a closing parenthesis, each optionally followed by a comma. */
  function Args(ts: seq<Token>, pos: nat, acc: seq<Expr>): (r: Parsed<seq<Expr>>)
    requires pos <= |ts|
    ensures r.Ok? ==> pos <= r.value.1 <= |ts|
    decreases |ts| - pos, 12
  {
    if pos == |ts| then Err(NoToken)
    else if ts[pos].kind == Op(RPAREN) then Ok((acc, pos))
    else
      var e :- Expression(ts, pos);
      if e.1 == |ts| then Err(NoToken)
      else if ts[e.1].kind == Op(COMMA) then Args(ts, e.1 + 1, acc + [e.0])
      else Args(ts, e.1, acc + [e.0])
  }

  /** `parse_if` (parser_ll.py:78-99): `if (cond): block`, then `elif` clauses, then an
      optional `else: block`. */
  function IfStatement(ts: seq<Token>, pos: nat): (r: Parsed<Stmt>)
    requires pos <= |ts|
    ensures r.Ok? ==> pos < r.value.1 <= |ts|
    decreases |ts| - pos, 18
  {
    var kw :- ExpectAt(ts, pos, Kw(IF));
    var open :- ExpectAt(ts, kw.1, Op(LPAREN));
    var cond :- Expression(ts, open.1);
    var close :- ExpectAt(ts, cond.1, Op(RPAREN));
    var colon :- ExpectAt(ts, close.1, Op(COLON));
    var thenBlock :- Block(ts, colon.1);
    var elifs :- Elifs(ts, thenBlock.1, []);
    var elseBlock :- ElseClause(ts, elifs.1);
    Ok((If(cond.0, thenBlock.0, elifs.0, elseBlock.0), elseBlock.1))
  }

  /** The optional `else: block` of `parse_if` (parser_ll.py:94-97). */
  function ElseClause(ts: seq<Token>, pos: nat): (r: Parsed<ElseBlock>)
    requires pos <= |ts|
    ensures r.Ok? ==> pos <= r.value.1 <= |ts|
    decreases |ts| - pos, 17
  {
    if At(ts, pos, Kw(ELSE)) then
      var colon :- ExpectAt(ts, pos + 1, Op(COLON));
      var block :- Block(ts, colon.1);
      Ok((Else(block.0), block.1))
    else Ok((NoElse, pos))
  }

  /** The `elif` loop of `parse_if` (parser_ll.py:86-93): clauses in source order. */
  function Elifs(ts: seq<Token>, pos: nat, acc: seq<Elif>): (r: Parsed<seq<Elif>>)
    requires pos <= |ts|
    ensures r.Ok? ==> pos <= r.value.1 <= |ts| && !At(ts, r.value.1, Kw(ELIF))
    decreases |ts| - pos, 17
  {
    if At(ts, pos, Kw(ELIF)) then
      var clause :- ElifClause(ts, pos + 1);
      Elifs(ts, clause.1, acc + [clause.0])
    else Ok((acc, pos))
  }

  /** One `elif` clause after its keyword: `(cond): block` (parser_ll.py:87-92). */
  function ElifClause(ts: seq<Token>, pos: nat): (r: Parsed<Elif>)
    requires pos <= |ts|
    ensures r.Ok? ==> pos < r.value.1 <= |ts|
    decreases |ts| - pos, 16
  {
    var open :- ExpectAt(ts, pos, Op(LPAREN));
    var cond :- Expression(ts, open.1);
    var close :- ExpectAt(ts, cond.1, Op(RPAREN));
    var colon :- ExpectAt(ts, close.1, Op(COLON));
    var block :- Block(ts, colon.1);
    Ok((Elif(cond.0, block.0), block.1))
  }

  /** `parse_for` (parser_ll.py:101-111): `for NAME in range(expr): block`. */
  function ForStatement(ts: seq<Token>, pos: nat): (r: Parsed<Stmt>)
    requires pos <= |ts|
    ensures r.Ok? ==> pos < r.value.1 <= |ts|
    decreases |ts| - pos, 18
  {
    var kw :- ExpectAt(ts, pos, Kw(FOR));
    var name :- ExpectAt(ts, kw.1, IDENTIFIER);
    var inKw :- ExpectAt(ts, name.1, Kw(IN));
    var rangeKw :- ExpectAt(ts, inKw.1, Kw(RANGE));
    var open :- ExpectAt(ts, rangeKw.1, Op(LPAREN));
    var bound :- Expression(ts, open.1);
    var close :- ExpectAt(ts, bound.1, Op(RPAREN));
    var colon :- ExpectAt(ts, close.1, Op(COLON));
    var block :- Block(ts, colon.1);
    Ok((For(TextOf(name.0), bound.0, block.0), block.1))
  }

  /** `parse_while` (parser_ll.py:113-120): `while (cond): block`. */
  function WhileStatement(ts: seq<Token>, pos: nat): (r: Parsed<Stmt>)
    requires pos <= |ts|
    ensures r.Ok? ==> pos < r.value.1 <= |ts|
    decreases |ts| - pos, 18
  {
    var kw :- ExpectAt(ts, pos, Kw(WHILE));
    var open :- ExpectAt(ts, kw.1, Op(LPAREN));
    var cond :- Expression(ts, open.1);
    var close :- ExpectAt(ts, cond.1, Op(RPAREN));
    var colon :- ExpectAt(ts, close.1, Op(COLON));
    var block :- Block(ts, colon.1);
    Ok((While(cond.0, block.0), block.1))
  }

  /** `parse_func` (parser_ll.py:122-135): `func NAME(params): block`. */
  function FuncStatement(ts: seq<Token>, pos: nat): (r: Parsed<Stmt>)
    requires pos <= |ts|
    ensures r.Ok? ==> pos < r.value.1 <= |ts|
    decreases |ts| - pos, 18
  {
    var kw :- ExpectAt(ts, pos, Kw(FUNC));
    var name :- ExpectAt(ts, kw.1, IDENTIFIER);
    var open :- ExpectAt(ts, name.1, Op(LPAREN));
    var params :- Params(ts, open.1, []);
    var close :- ExpectAt(ts, params.1, Op(RPAREN));
    var colon :- ExpectAt(ts, close.1, Op(COLON));
    var block :- Block(ts, colon.1);
    Ok((Func(TextOf(name.0), params.0, block.0), block.1))
  }

  /** The parameter loop of `parse_func` (parser_ll.py:127-131): identifiers up to a closing
      parenthesis, each optionally followed by a comma. */
  function Params(ts: seq<Token>, pos: nat, acc: seq<string>): (r: Parsed<seq<string>>)
    requires pos <= |ts|
    ensures r.Ok? ==> pos <= r.value.1 <= |ts|
    decreases |ts| - pos
  {
    if pos == |ts| then Err(NoToken)
    else if ts[pos].kind == Op(RPAREN) then Ok((acc, pos))
    else
      var param :- ExpectAt(ts, pos, IDENTIFIER);
      if param.1 == |ts| then Err(NoToken)
      else if ts[param.1].kind == Op(COMMA) then Params(ts, param.1 + 1, acc + [TextOf(param.0)])
      else Params(ts, param.1, acc + [TextOf(param.0)])
  }

  /** `parse_return` (parser_ll.py:137-142): `return`, with a value unless EOF follows. */
  function ReturnStatement(ts: seq<Token>, pos: nat): (r: Parsed<Stmt>)
    requires pos <= |ts|
    ensures r.Ok? ==> pos < r.value.1 <= |ts|
    decreases |ts| - pos, 18
  {
    var kw :- ExpectAt(ts, pos, Kw(RETURN));
    if kw.1 < |ts| && ts[kw.1].kind != EOF then
      var value :- Expression(ts, kw.1);
      Ok((Return(Some(value.0)), value.1))
    else Ok((Return(None), kw.1))
  }

  /** `parse_table` (parser_ll.py:144-158): `table NAME = { "key": expr, ... }`, an assignment
      of a table literal. */
  function TableStatement(ts: seq<Token>, pos: nat): (r: Parsed<Stmt>)
    requires pos <= |ts|
    ensures r.Ok? ==> pos < r.value.1 <= |ts|
    decreases |ts| - pos, 18
  {
    var kw :- ExpectAt(ts, pos, Kw(TABLE));
    var name :- ExpectAt(ts, kw.1, IDENTIFIER);
    var assign :- ExpectAt(ts, name.1, Op(ASSIGN));
    var open :- ExpectAt(ts, assign.1, Op(LBRACKET));
    var pairs :- Pairs(ts, open.1, []);
    var close :- ExpectAt(ts, pairs.1, Op(RBRACKET));
    Ok((Assignment(TextOf(name.0), Table(pairs.0)), close.1))
  }

  /** The entry loop of `parse_table` (parser_ll.py:150-156): `"key": expr` entries up to a
      closing brace, each optionally followed by a comma, stored as `pairs[key] = value`. */
  function Pairs(ts: seq<Token>, pos: nat, acc: seq<Entry<Expr>>): (r: Parsed<seq<Entry<Expr>>>)
    requires pos <= |ts|
    ensures r.Ok? ==> pos <= r.value.1 <= |ts|
    decreases |ts| - pos, 17
  {
    if pos == |ts| then Err(NoToken)
    else if ts[pos].kind == Op(RBRACKET) then Ok((acc, pos))
    else
      var pair :- Pair(ts, pos);
      var pairs := Put(acc, pair.0.key, pair.0.value);
      if pair.1 == |ts| then Err(NoToken)
      else if ts[pair.1].kind == Op(COMMA) then Pairs(ts, pair.1 + 1, pairs)
      else Pairs(ts, pair.1, pairs)
  }

  /** One `"key": expr` entry of a table (parser_ll.py:150-153). */
  function Pair(ts: seq<Token>, pos: nat): (r: Parsed<Entry<Expr>>)
    requires pos <= |ts|
    ensures r.Ok? ==> pos < r.value.1 <= |ts|
    decreases |ts| - pos, 16
  {
    var key :- ExpectAt(ts, pos, STRING);
    var colon :- ExpectAt(ts, key.1, Op(COLON));
    var value :- Expression(ts, colon.1);
    Ok((Entry(TextOf(key.0), value.0), value.1))
  }

  /** `parse_import` (parser_ll.py:160-168): `import "path"` or `import NAME`. */
  function ImportStatement(ts: seq<Token>, pos: nat): (r: Parsed<Stmt>)
    requires pos <= |ts|
    ensures r.Ok? ==> pos < r.value.1 <= |ts|
    decreases |ts| - pos, 18
  {
    var kw :- ExpectAt(ts, pos, Kw(IMPORT));
    if kw.1 == |ts| then Err(NoToken)
    else if ts[kw.1].kind == STRING then
      var path :- ExpectAt(ts, kw.1, STRING);
      Ok((Import(TextOf(path.0)), path.1))
    else
      var lib :- ExpectAt(ts, kw.1, IDENTIFIER);
      Ok((Import(TextOf(lib.0)), lib.1))
  }

  /** `parse_block` (parser_ll.py:170-177): INDENT, statements, DEDENT. */
  function Block(ts: seq<Token>, pos: nat): (r: Parsed<seq<Stmt>>)
    requires pos <= |ts|
    ensures r.Ok? ==> pos < r.value.1 <= |ts|
    decreases |ts| - pos, 21
  {
    var indent :- ExpectAt(ts, pos, INDENT);
    var body :- BlockBody(ts, indent.1, []);
    var dedent :- ExpectAt(ts, body.1, DEDENT);
    Ok((body.0, dedent.1))
  }

  /** The loop of `parse_block` (parser_ll.py:173-175): statements up to a DEDENT or the end of
      the tokens. */
  function BlockBody(ts: seq<Token>, pos: nat, acc: seq<Stmt>): (r: Parsed<seq<Stmt>>)
    requires pos <= |ts|
    ensures r.Ok? ==> pos <= r.value.1 <= |ts|
    decreases |ts| - pos, 20
  {
    if pos < |ts| && ts[pos].kind != DEDENT then
      var s :- Statement(ts, pos);
      BlockBody(ts, s.1, acc + [s.0])
    else Ok((acc, pos))
  }

  // ---------------------------------------------------------------------------
  // Expressions

  /** `parse_expression` (parser_ll.py:179-180). */
  function Expression(ts: seq<Token>, pos: nat): (r: Parsed<Expr>)
    requires pos <= |ts|
    ensures r.Ok? ==> pos < r.value.1 <= |ts|
    decreases |ts| - pos, 11
  {
    Logic(ts, pos)
  }

  /** `parse_logic` (parser_ll.py:182-189): binary-level operands joined by `and`/`or`. */
  function Logic(ts: seq<Token>, pos: nat): (r: Parsed<Expr>)
    requires pos <= |ts|
    ensures r.Ok? ==> pos < r.value.1 <= |ts|
    decreases |ts| - pos, 10
  {
    var left :- Binary(ts, pos);
    LogicRest(ts, left.1, left.0)
  }

  /** The loop of `parse_logic` with the expression `left` built so far. */
  function LogicRest(ts: seq<Token>, pos: nat, left: Expr): (r: Parsed<Expr>)
    requires pos <= |ts|
    ensures r.Ok? ==> pos <= r.value.1 <= |ts|
    decreases |ts| - pos, 10
  {
    if pos < |ts| && IsLogicOp(ts[pos].kind) then
      var right :- Binary(ts, pos + 1);
      LogicRest(ts, right.1, BinOp(left, ts[pos].kind, right.0))
    else Ok((left, pos))
  }

  /** `parse_binop` (parser_ll.py:191-198): terms joined by the operators of the one binary
      level. */
  function Binary(ts: seq<Token>, pos: nat): (r: Parsed<Expr>)
    requires pos <= |ts|
    ensures r.Ok? ==> pos < r.value.1 <= |ts|
    decreases |ts| - pos, 9
  {
    var left :- Term(ts, pos);
    BinaryRest(ts, left.1, left.0)
  }

  /** The loop of `parse_binop` with the expression `left` built so far. */
  function BinaryRest(ts: seq<Token>, pos: nat, left: Expr): (r: Parsed<Expr>)
    requires pos <= |ts|
    ensures r.Ok? ==> pos <= r.value.1 <= |ts|
    decreases |ts| - pos, 9
  {
    if pos < |ts| && IsBinaryOp(ts[pos].kind) then
      var right :- Term(ts, pos + 1);
      BinaryRest(ts, right.1, BinOp(left, ts[pos].kind, right.0))
    else Ok((left, pos))
  }

  /** `parse_term` (parser_ll.py:200-223): a literal, a variable, a call or a parenthesised
      expression. A boolean literal is true exactly when the token's text is "TRUE". */
  function Term(ts: seq<Token>, pos: nat): (r: Parsed<Expr>)
    requires pos <= |ts|
    ensures r.Ok? ==> pos < r.value.1 <= |ts|
    decreases |ts| - pos, 8
  {
    if pos == |ts| then Err(NoToken)
    else
      var tok := ts[pos];
      if tok.kind == NUMBER then Ok((Literal(LInt(tok.value.num)), pos + 1))
      else if tok.kind == STRING then Ok((Literal(LStr(tok.value.text)), pos + 1))
      else if tok.kind == IDENTIFIER then
        if At(ts, pos + 1, Op(LPAREN)) then CallExpr(ts, pos + 1, tok.value.text)
        else Ok((Variable(tok.value.text), pos + 1))
      else if tok.kind == Kw(TRUE) || tok.kind == Kw(FALSE) then
        Ok((Literal(LBool(tok.value == Text("TRUE"))), pos + 1))
      else if tok.kind == Op(LPAREN) then
        var inner :- Expression(ts, pos + 1);
        var close :- ExpectAt(ts, inner.1, Op(RPAREN));
        Ok((inner.0, close.1))
      else Err(ExpressionExpected(Some(tok)))
  }

  /** `parse_call` (parser_ll.py:225-233): the arguments of a call of `name`. */
  function CallExpr(ts: seq<Token>, pos: nat, name: string): (r: Parsed<Expr>)
    requires pos <= |ts|
    ensures r.Ok? ==> pos < r.value.1 <= |ts|
    decreases |ts| - pos, 13
  {
    var open :- ExpectAt(ts, pos, Op(LPAREN));
    var args :- Args(ts, open.1, []);
    var close :- ExpectAt(ts, args.1, Op(RPAREN));
    Ok((Call(name, args.0), close.1))
  }

  // ---------------------------------------------------------------------------
  // The Parser class

  /** A method's result agrees with the specification `spec` of its rule: the same value with
      the cursor `pos` just after it, or the same error. */
  predicate Follows<T(==)>(r: Result<T, ParseError>, spec: Parsed<T>, pos: nat)
  {
    match spec
    case Ok((v, p)) => r == Ok(v) && pos == p
    case Err(e) => r == Err(e)
  }

  class Parser {
    const tokens: seq<Token>
    var pos: nat
    var current: Option<Token>

    /** `current_tok` is the token at `pos`, or None once `pos` has passed the last token. */
    ghost predicate Valid()
      reads this
    {
      pos <= |tokens| && current == Cur(tokens, pos)
    }

    /** `Parser(tokens)` (parser_ll.py:4-7); the source fails on an empty token list. */
    constructor(tokens: seq<Token>)
      requires |tokens| > 0
      ensures Valid() && this.tokens == tokens && pos == 0
    {
      this.tokens := tokens;
      pos := 0;
      current := Some(tokens[0]);
    }

    /** `advance` (parser_ll.py:9-14); every call site has a current token. */
    method Advance()
      requires Valid() && current.Some?
      modifies this`pos, this`current
      ensures Valid() && pos == old(pos) + 1
    {
      pos := pos + 1;
      if pos < |tokens| {
        current := Some(tokens[pos]);
      } else {
        current := None;
      }
    }

    /** `expect` (parser_ll.py:235-241). */
    method Expect(k: Kind) returns (r: Result<Token, ParseError>)
      requires Valid()
      modifies this`pos, this`current
      ensures Valid() && Follows(r, ExpectAt(tokens, old(pos), k), pos)
    {
      if current.Some? && current.value.kind == k {
        var tok := current.value;
        Advance();
        return Ok(tok);
      }
      return Err(Expected(k, current));
    }

    /** `parse` (parser_ll.py:19-24), from the current position. */
    method Parse() returns (r: Result<Program, ParseError>)
      requires Valid()
      modifies this`pos, this`current
      ensures Valid() && r == ProgramOf(Statements(tokens, old(pos), []))
    {
      var statements: seq<Stmt> := [];
      while current.Some? && current.value.kind != EOF
        invariant Valid() && old(pos) <= pos
        invariant Statements(tokens, old(pos), []) == Statements(tokens, pos, statements)
        decreases |tokens| - pos
      {
        var stmt :- ParseStatement();
        statements := statements + [stmt];
      }
      return Ok(Program(statements));
    }

    /** `parse_statement` (parser_ll.py:26-55). */
    method ParseStatement() returns (r: Result<Stmt, ParseError>)
      requires Valid() && current.Some?
      modifies this`pos, this`current
      ensures Valid() && Follows(r, Statement(tokens, old(pos)), pos)
      decreases |tokens| - pos, 19
    {
      var k := current.value.kind;
      if k == Kw(LOCAL) {
        r := ParseAssignment();
      } else if k == Kw(PRINTLINE) || k == Kw(PRINTLINEF) {
        r := ParsePrintline();
      } else if k == Kw(IF) {
        r := ParseIf();
      } else if k == Kw(FOR) {
        r := ParseFor();
      } else if k == Kw(WHILE) {
        r := ParseWhile();
      } else if k == Kw(BREAK) {
        Advance();
        r := Ok(Break);
      } else if k == Kw(CONTINUE) {
        Advance();
        r := Ok(Continue);
      } else if k == Kw(FUNC) {
        r := ParseFunc();
      } else if k == Kw(RETURN) {
        r := ParseReturn();
      } else if k == Kw(TABLE) {
        r := ParseTable();
      } else if k == Kw(IMPORT) {
        r := ParseImport();
      } else {
        var e :- ParseExpression();
        r := Ok(ExprStmt(e));
      }
    }

    /** `parse_assignment` (parser_ll.py:57-62). */
    method ParseAssignment() returns (r: Result<Stmt, ParseError>)
      requires Valid()
      modifies this`pos, this`current
      ensures Valid() && Follows(r, AssignmentStatement(tokens, old(pos)), pos)
      decreases |tokens| - pos, 18
    {
      var local :- Expect(Kw(LOCAL));
      var name :- Expect(IDENTIFIER);
      var assign :- Expect(Op(ASSIGN));
      var value :- ParseExpression();
      return Ok(Assignment(name.value.text, value));
    }

    /** `parse_printline` (parser_ll.py:64-76). */
    method ParsePrintline() returns (r: Result<Stmt, ParseError>)
      requires Valid()
      modifies this`pos, this`current
      ensures Valid() && Follows(r, PrintlineStatement(tokens, old(pos)), pos)
      decreases |tokens| - pos, 18
    {
      if current.None? {
        return Err(NoToken);
      }
      if current.value.kind == Kw(PRINTLINE) {
        Advance();
      } else if current.value.kind == Kw(PRINTLINEF) {
        Advance();
      }
      var open :- Expect(Op(LPAREN));
      var args :- ParseArgs();
      var close :- Expect(Op(RPAREN));
      return Ok(Printline(args));
    }

    /** The argument loop of `parse_printline` and `parse_call` (parser_ll.py:71-74, 228-231). */
    method ParseArgs() returns (r: Result<seq<Expr>, ParseError>)
      requires Valid()
      modifies this`pos, this`current
      ensures Valid() && Follows(r, Args(tokens, old(pos), []), pos)
      decreases |tokens| - pos, 12
    {
      var args: seq<Expr> := [];
      while current.None? || current.value.kind != Op(RPAREN)
        invariant Valid() && old(pos) <= pos
        invariant Args(tokens, old(pos), []) == Args(tokens, pos, args)
        decreases |tokens| - pos
      {
        if current.None? {
          return Err(NoToken);
        }
        var arg :- ParseExpression();
        args := args + [arg];
        if current.None? {
          return Err(NoToken);
        }
        if current.value.kind == Op(COMMA) {
          Advance();
        }
      }
      return Ok(args);
    }

    /** `parse_if` (parser_ll.py:78-99). */
    method ParseIf() returns (r: Result<Stmt, ParseError>)
      requires Valid()
      modifies this`pos, this`current
      ensures Valid() && Follows(r, IfStatement(tokens, old(pos)), pos)
      decreases |tokens| - pos, 18
    {
      var kw :- Expect(Kw(IF));
      var open :- Expect(Op(LPAREN));
      var condition :- ParseExpression();
      var close :- Expect(Op(RPAREN));
      var colon :- Expect(Op(COLON));
      var thenBlock :- ParseBlock();
      var elifs :- ParseElifs();
      var elseBlock :- ParseElse();
      return Ok(If(condition, thenBlock, elifs, elseBlock));
    }

    /** The optional `else` clause of `parse_if` (parser_ll.py:94-97). */
    method ParseElse() returns (r: Result<ElseBlock, ParseError>)
      requires Valid()
      modifies this`pos, this`current
      ensures Valid() && Follows(r, ElseClause(tokens, old(pos)), pos)
      decreases |tokens| - pos, 17
    {
      if current.Some? && current.value.kind == Kw(ELSE) {
        Advance();
        var colon :- Expect(Op(COLON));
        var block :- ParseBlock();
        return Ok(Else(block));
      }
      return Ok(NoElse);
    }

    /** The `elif` loop of `parse_if` (parser_ll.py:85-93). */
    method ParseElifs() returns (r: Result<seq<Elif>, ParseError>)
      requires Valid()
      modifies this`pos, this`current
      ensures Valid() && Follows(r, Elifs(tokens, old(pos), []), pos)
      decreases |tokens| - pos, 17
    {
      var elifs: seq<Elif> := [];
      while current.Some? && current.value.kind == Kw(ELIF)
        invariant Valid() && old(pos) <= pos
        invariant Elifs(tokens, old(pos), []) == Elifs(tokens, pos, elifs)
        decreases |tokens| - pos
      {
        Advance();
        var clause :- ParseElifClause();
        elifs := elifs + [clause];
      }
      return Ok(elifs);
    }

    /** One `elif` clause after its keyword (parser_ll.py:87-92). */
    method ParseElifClause() returns (r: Result<Elif, ParseError>)
      requires Valid()
      modifies this`pos, this`current
      ensures Valid() && Follows(r, ElifClause(tokens, old(pos)), pos)
      decreases |tokens| - pos, 16
    {
      var open :- Expect(Op(LPAREN));
      var condition :- ParseExpression();
      var close :- Expect(Op(RPAREN));
      var colon :- Expect(Op(COLON));
      var block :- ParseBlock();
      return Ok(Elif(condition, block));
    }

    /** `parse_for` (parser_ll.py:101-111). */
    method ParseFor() returns (r: Result<Stmt, ParseError>)
      requires Valid()
      modifies this`pos, this`current
      ensures Valid() && Follows(r, ForStatement(tokens, old(pos)), pos)
      decreases |tokens| - pos, 18
    {
      var kw :- Expect(Kw(FOR));
      var name :- Expect(IDENTIFIER);
      var inKw :- Expect(Kw(IN));
      var rangeKw :- Expect(Kw(RANGE));
      var open :- Expect(Op(LPAREN));
      var bound :- ParseExpression();
      var close :- Expect(Op(RPAREN));
      var colon :- Expect(Op(COLON));
      var block :- ParseBlock();
      return Ok(For(name.value.text, bound, block));
    }

    /** `parse_while` (parser_ll.py:113-120). */
    method ParseWhile() returns (r: Result<Stmt, ParseError>)
      requires Valid()
      modifies this`pos, this`current
      ensures Valid() && Follows(r, WhileStatement(tokens, old(pos)), pos)
      decreases |tokens| - pos, 18
    {
      var kw :- Expect(Kw(WHILE));
      var open :- Expect(Op(LPAREN));
      var condition :- ParseExpression();
      var close :- Expect(Op(RPAREN));
      var colon :- Expect(Op(COLON));
      var block :- ParseBlock();
      return Ok(While(condition, block));
    }

    /** `parse_func` (parser_ll.py:122-135). */
    method ParseFunc() returns (r: Result<Stmt, ParseError>)
      requires Valid()
      modifies this`pos, this`current
      ensures Valid() && Follows(r, FuncStatement(tokens, old(pos)), pos)
      decreases |tokens| - pos, 18
    {
      var kw :- Expect(Kw(FUNC));
      var name :- Expect(IDENTIFIER);
      var open :- Expect(Op(LPAREN));
      var params :- ParseParams();
      var close :- Expect(Op(RPAREN));
      var colon :- Expect(Op(COLON));
      var block :- ParseBlock();
      return Ok(Func(name.value.text, params, block));
    }

    /** The parameter loop of `parse_func` (parser_ll.py:126-131). */
    method ParseParams() returns (r: Result<seq<string>, ParseError>)
      requires Valid()
      modifies this`pos, this`current
      ensures Valid() && Follows(r, Params(tokens, old(pos), []), pos)
    {
      var params: seq<string> := [];
      while current.None? || current.value.kind != Op(RPAREN)
        invariant Valid() && old(pos) <= pos
        invariant Params(tokens, old(pos), []) == Params(tokens, pos, params)
        decreases |tokens| - pos
      {
        if current.None? {
          return Err(NoToken);
        }
        var param :- Expect(IDENTIFIER);
        params := params + [param.value.text];
        if current.None? {
          return Err(NoToken);
        }
        if current.value.kind == Op(COMMA) {
          Advance();
        }
      }
      return Ok(params);
    }

    /** `parse_return` (parser_ll.py:137-142). */
    method ParseReturn() returns (r: Result<Stmt, ParseError>)
      requires Valid()
      modifies this`pos, this`current
      ensures Valid() && Follows(r, ReturnStatement(tokens, old(pos)), pos)
      decreases |tokens| - pos, 18
    {
      var kw :- Expect(Kw(RETURN));
      var value: Option<Expr> := None;
      if current.Some? && current.value.kind != EOF {
        var e :- ParseExpression();
        value := Some(e);
      }
      return Ok(Return(value));
    }

    /** `parse_table` (parser_ll.py:144-158). */
    method ParseTable() returns (r: Result<Stmt, ParseError>)
      requires Valid()
      modifies this`pos, this`current
      ensures Valid() && Follows(r, TableStatement(tokens, old(pos)), pos)
      decreases |tokens| - pos, 18
    {
      var kw :- Expect(Kw(TABLE));
      var name :- Expect(IDENTIFIER);
      var assign :- Expect(Op(ASSIGN));
      var open :- Expect(Op(LBRACKET));
      var pairs :- ParsePairs();
      var close :- Expect(Op(RBRACKET));
      return Ok(Assignment(name.value.text, Table(pairs)));
    }

    /** The entry loop of `parse_table` (parser_ll.py:149-156). */
    method ParsePairs() returns (r: Result<seq<Entry<Expr>>, ParseError>)
      requires Valid()
      modifies this`pos, this`current
      ensures Valid() && Follows(r, Pairs(tokens, old(pos), []), pos)
      decreases |tokens| - pos, 17
    {
      var pairs: seq<Entry<Expr>> := [];
      while current.None? || current.value.kind != Op(RBRACKET)
        invariant Valid() && old(pos) <= pos
        invariant Pairs(tokens, old(pos), []) == Pairs(tokens, pos, pairs)
        decreases |tokens| - pos
      {
        if current.None? {
          return Err(NoToken);
        }
        var pair :- ParsePair();
        pairs := Put(pairs, pair.key, pair.value);
        if current.None? {
          return Err(NoToken);
        }
        if current.value.kind == Op(COMMA) {
          Advance();
        }
      }
      return Ok(pairs);
    }

    /** One `"key": expr` entry of `parse_table` (parser_ll.py:150-153). */
    method ParsePair() returns (r: Result<Entry<Expr>, ParseError>)
      requires Valid()
      modifies this`pos, this`current
      ensures Valid() && Follows(r, Pair(tokens, old(pos)), pos)
      decreases |tokens| - pos, 16
    {
      var key :- Expect(STRING);
      var colon :- Expect(Op(COLON));
      var value :- ParseExpression();
      return Ok(Entry(key.value.text, value));
    }

    /** `parse_import` (parser_ll.py:160-168). */
    method ParseImport() returns (r: Result<Stmt, ParseError>)
      requires Valid()
      modifies this`pos, this`current
      ensures Valid() && Follows(r, ImportStatement(tokens, old(pos)), pos)
      decreases |tokens| - pos, 18
    {
      var kw :- Expect(Kw(IMPORT));
      if current.None? {
        return Err(NoToken);
      }
      if current.value.kind == STRING {
        var path :- Expect(STRING);
        return Ok(Import(path.value.text));
      }
      var lib :- Expect(IDENTIFIER);
      return Ok(Import(lib.value.text));
    }

    /** `parse_block` (parser_ll.py:170-177). */
    method ParseBlock() returns (r: Result<seq<Stmt>, ParseError>)
      requires Valid()
      modifies this`pos, this`current
      ensures Valid() && Follows(r, Block(tokens, old(pos)), pos)
      decreases |tokens| - pos, 21
    {
      var indent :- Expect(INDENT);
      ghost var start := pos;
      var statements: seq<Stmt> := [];
      while current.Some? && current.value.kind != DEDENT
        invariant Valid() && start <= pos
        invariant BlockBody(tokens, start, []) == BlockBody(tokens, pos, statements)
        decreases |tokens| - pos
      {
        var stmt :- ParseStatement();
        statements := statements + [stmt];
      }
      var dedent :- Expect(DEDENT);
      return Ok(statements);
    }

    /** `parse_expression` (parser_ll.py:179-180). */
    method ParseExpression() returns (r: Result<Expr, ParseError>)
      requires Valid()
      modifies this`pos, this`current
      ensures Valid() && Follows(r, Expression(tokens, old(pos)), pos)
      decreases |tokens| - pos, 11
    {
      r := ParseLogic();
    }

    /** `parse_logic` (parser_ll.py:182-189). */
    method ParseLogic() returns (r: Result<Expr, ParseError>)
      requires Valid()
      modifies this`pos, this`current
      ensures Valid() && Follows(r, Logic(tokens, old(pos)), pos)
      decreases |tokens| - pos, 10
    {
      var left :- ParseBinop();
      while current.Some? && IsLogicOp(current.value.kind)
        invariant Valid() && old(pos) < pos
        invariant Logic(tokens, old(pos)) == LogicRest(tokens, pos, left)
        decreases |tokens| - pos
      {
        var op := current.value.kind;
        Advance();
        var right :- ParseBinop();
        left := BinOp(left, op, right);
      }
      return Ok(left);
    }

    /** `parse_binop` (parser_ll.py:191-198). */
    method ParseBinop() returns (r: Result<Expr, ParseError>)
      requires Valid()
      modifies this`pos, this`current
      ensures Valid() && Follows(r, Binary(tokens, old(pos)), pos)
      decreases |tokens| - pos, 9
    {
      var left :- ParseTerm();
      while current.Some? && IsBinaryOp(current.value.kind)
        invariant Valid() && old(pos) < pos
        invariant Binary(tokens, old(pos)) == BinaryRest(tokens, pos, left)
        decreases |tokens| - pos
      {
        var op := current.value.kind;
        Advance();
        var right :- ParseTerm();
        left := BinOp(left, op, right);
      }
      return Ok(left);
    }

    /** `parse_term` (parser_ll.py:200-223). */
    method ParseTerm() returns (r: Result<Expr, ParseError>)
      requires Valid()
      modifies this`pos, this`current
      ensures Valid() && Follows(r, Term(tokens, old(pos)), pos)
      decreases |tokens| - pos, 8
    {
      if current.None? {
        return Err(NoToken);
      }
      var tok := current.value;
      if tok.kind == NUMBER {
        Advance();
        return Ok(Literal(LInt(tok.value.num)));
      } else if tok.kind == STRING {
        Advance();
        return Ok(Literal(LStr(tok.value.text)));
      } else if tok.kind == IDENTIFIER {
        Advance();
        if current.Some? && current.value.kind == Op(LPAREN) {
          r := ParseCall(tok.value.text);
        } else {
          r := Ok(Variable(tok.value.text));
        }
      } else if tok.kind == Kw(TRUE) || tok.kind == Kw(FALSE) {
        Advance();
        return Ok(Literal(LBool(tok.value == Text("TRUE"))));
      } else if tok.kind == Op(LPAREN) {
        Advance();
        var inner :- ParseExpression();
        var close :- Expect(Op(RPAREN));
        return Ok(inner);
      } else {
        return Err(ExpressionExpected(Some(tok)));
      }
    }

    /** `parse_call` (parser_ll.py:225-233). */
    method ParseCall(name: string) returns (r: Result<Expr, ParseError>)
      requires Valid()
      modifies this`pos, this`current
      ensures Valid() && Follows(r, CallExpr(tokens, old(pos), name), pos)
      decreases |tokens| - pos, 13
    {
      var open :- Expect(Op(LPAREN));
      var args :- ParseArgs();
      var close :- Expect(Op(RPAREN));
      return Ok(Call(name, args));
    }
  }

  /** `Parser(tokens).parse()` (parser_ll.py:4-7, 19-24): the program the specification
      describes, or its error. */
  method ParseAll(tokens: seq<Token>) returns (r: Result<Program, ParseError>)
    ensures r == ParseTokens(tokens)
  {
    if |tokens| == 0 {
      return Err(NoTokens);
    }
    var parser := new Parser(tokens);
    r := parser.Parse();
  }
}
