/** Properties of the FFling parser, stated on the specification functions of module Parsing
    (parser_ll.py). */
module ParserProps {
  import opened Results
  import opened Tokens
  import opened Dicts
  import opened Ast
  import opened Parsing

  // ---------------------------------------------------------------------------
  // Operands and operator chains

  /** A token that is a whole operand by itself: a number, a string, a name or a boolean. */
  predicate IsAtom(t: Token)
  {
    t.kind == NUMBER || t.kind == STRING || t.kind == IDENTIFIER || t.kind == Kw(TRUE)
    || t.kind == Kw(FALSE)
  }

  /** The node an operand token stands for. */
  function AtomOf(t: Token): Expr
    requires IsAtom(t)
  {
    if t.kind == NUMBER then Literal(LInt(t.value.num))
    else if t.kind == STRING then Literal(LStr(t.value.text))
    else if t.kind == IDENTIFIER then Variable(t.value.text)
    else Literal(LBool(t.value == Text("TRUE")))
  }

  /** The loops of both expression levels stop at `p`. */
  predicate EndsAt(ts: seq<Token>, p: nat)
  {
    !(p < |ts| && (IsBinaryOp(ts[p].kind) || IsLogicOp(ts[p].kind)))
  }

  /** An operand token not followed by `(` is a term by itself. */
  lemma TermAtom(ts: seq<Token>, pos: nat)
    requires pos < |ts| && IsAtom(ts[pos]) && !At(ts, pos + 1, Op(LPAREN))
    ensures Term(ts, pos) == Ok((AtomOf(ts[pos]), pos + 1))
  {
  }

  /** `parse_binop` starts from its first term. */
  lemma BinaryFrom(ts: seq<Token>, pos: nat, left: Expr, q: nat)
    requires pos <= |ts| && Term(ts, pos) == Ok((left, q))
    ensures Binary(ts, pos) == BinaryRest(ts, q, left)
  {
  }

  /** One turn of the loop of `parse_binop`. */
  lemma BinaryRestStep(ts: seq<Token>, pos: nat, left: Expr, right: Expr, q: nat)
    requires pos < |ts| && IsBinaryOp(ts[pos].kind) && Term(ts, pos + 1) == Ok((right, q))
    ensures BinaryRest(ts, pos, left) == BinaryRest(ts, q, BinOp(left, ts[pos].kind, right))
  {
  }

  /** The loop of `parse_binop` ends at a token that is no binary operator. */
  lemma BinaryRestStop(ts: seq<Token>, pos: nat, left: Expr)
    requires pos <= |ts| && (pos == |ts| || !IsBinaryOp(ts[pos].kind))
    ensures BinaryRest(ts, pos, left) == Ok((left, pos))
  {
  }

  /** `parse_expression` starts from its first binary-level operand. */
  lemma LogicFrom(ts: seq<Token>, pos: nat, left: Expr, q: nat)
    requires pos <= |ts| && Binary(ts, pos) == Ok((left, q))
    ensures Expression(ts, pos) == LogicRest(ts, q, left)
  {
  }

  /** One turn of the loop of `parse_logic`. */
  lemma LogicRestStep(ts: seq<Token>, pos: nat, left: Expr, right: Expr, q: nat)
    requires pos < |ts| && IsLogicOp(ts[pos].kind) && Binary(ts, pos + 1) == Ok((right, q))
    ensures LogicRest(ts, pos, left) == LogicRest(ts, q, BinOp(left, ts[pos].kind, right))
  {
  }

  /** The loop of `parse_logic` ends at a token that is neither `and` nor `or`. */
  lemma LogicRestStop(ts: seq<Token>, pos: nat, left: Expr)
    requires pos <= |ts| && (pos == |ts| || !IsLogicOp(ts[pos].kind))
    ensures LogicRest(ts, pos, left) == Ok((left, pos))
  {
  }

  /** A term that ends the expression is the whole expression. */
  lemma TermExpression(ts: seq<Token>, pos: nat, e: Expr, q: nat)
    requires pos <= |ts| && Term(ts, pos) == Ok((e, q)) && EndsAt(ts, q)
    ensures Expression(ts, pos) == Ok((e, q))
  {
    BinaryFrom(ts, pos, e, q);
    BinaryRestStop(ts, q, e);
    LogicFrom(ts, pos, e, q);
    LogicRestStop(ts, q, e);
  }

  /** An operand token followed by a token that continues no expression is a whole
      expression. */
  lemma AtomExpression(ts: seq<Token>, pos: nat)
    requires pos < |ts| && IsAtom(ts[pos])
    requires pos + 1 == |ts| || !(IsBinaryOp(ts[pos + 1].kind) || IsLogicOp(ts[pos + 1].kind)
                                  || ts[pos + 1].kind == Op(LPAREN))
    ensures Expression(ts, pos) == Ok((AtomOf(ts[pos]), pos + 1))
  {
    TermAtom(ts, pos);
    TermExpression(ts, pos, AtomOf(ts[pos]), pos + 1);
  }

  // ---------------------------------------------------------------------------
  // One flat binary level, a lower logic level

  /** The tree of `t0 o0 t1 o1 ... tn` in which every operator groups to the left: the last
      operator is the root, and its left operand is the tree of everything before it. */
  function LeftNested(terms: seq<Expr>, ops: seq<Kind>): Expr
    requires |terms| == |ops| + 1
    decreases |ops|
  {
    if |ops| == 0 then terms[0]
    else BinOp(LeftNested(terms[..|terms| - 1], ops[..|ops| - 1]), ops[|ops| - 1], terms[|terms| - 1])
  }

  /** Folding in the first operator and term first gives the same tree. */
  lemma {:induction false} LeftNestedShift(left: Expr, op: Kind, first: Expr, rest: seq<Expr>,
                                            ops: seq<Kind>)
    requires |rest| == |ops|
    ensures LeftNested([BinOp(left, op, first)] + rest, ops) == LeftNested([left, first] + rest, [op] + ops)
    decreases |ops|
  {
    var xs, ys := [BinOp(left, op, first)] + rest, [left, first] + rest;
    if ops == [] {
      assert [left, first][..1] == [left] && [op][..0] == [];
    } else {
      var n := |ops|;
      LeftNestedShift(left, op, first, rest[..n - 1], ops[..n - 1]);
      assert xs[..|xs| - 1] == [BinOp(left, op, first)] + rest[..n - 1];
      assert ys[..|ys| - 1] == [left, first] + rest[..n - 1];
      assert ([op] + ops)[..n] == [op] + ops[..n - 1];
    }
  }

  /** The same, with the first of the remaining terms taken from a whole chain of terms. */
  lemma FoldFirst(left: Expr, op: Kind, terms: seq<Expr>, ops: seq<Kind>)
    requires |terms| == |ops| + 1
    ensures LeftNested([BinOp(left, op, terms[0])] + terms[1..], ops) == LeftNested([left] + terms, [op] + ops)
  {
    LeftNestedShift(left, op, terms[0], terms[1..], ops);
    assert [left, terms[0]] + terms[1..] == [left] + terms;
  }

  /** From the operator at `p` on, `ts` holds operators each followed by a term: the `i`-th
      term is `terms[i]` and ends at `ends[i]`; after the last one comes no binary operator. */
  predicate ChainFrom(ts: seq<Token>, p: nat, terms: seq<Expr>, ends: seq<nat>)
    decreases |terms|
  {
    && |terms| == |ends|
    && (terms == [] ==> !(p < |ts| && IsBinaryOp(ts[p].kind)))
    && (terms != [] ==>
          && p < |ts| && IsBinaryOp(ts[p].kind) && Term(ts, p + 1) == Ok((terms[0], ends[0]))
          && ChainFrom(ts, ends[0], terms[1..], ends[1..]))
  }

  /** The operators of such a chain. */
  function ChainOps(ts: seq<Token>, p: nat, ends: seq<nat>): (ops: seq<Kind>)
    ensures |ops| == |ends|
    decreases |ends|
  {
    if ends == [] then []
    else [if p < |ts| then ts[p].kind else EOF] + ChainOps(ts, ends[0], ends[1..])
  }

  /** Where the chain ends. */
  function ChainEnd(p: nat, ends: seq<nat>): nat
  {
    if ends == [] then p else ends[|ends| - 1]
  }

  /** The loop of `parse_binop`, entered with the tree `left` before a chain, finishes the
      left-nested tree. */
  lemma {:induction false} BinaryRestFolds(ts: seq<Token>, p: nat, left: Expr, terms: seq<Expr>,
                                            ends: seq<nat>)
    requires p <= |ts| && ChainFrom(ts, p, terms, ends)
    ensures BinaryRest(ts, p, left)
            == Ok((LeftNested([left] + terms, ChainOps(ts, p, ends)), ChainEnd(p, ends)))
    decreases |terms|
  {
    if terms == [] {
      BinaryRestStop(ts, p, left);
    } else {
      var x := BinOp(left, ts[p].kind, terms[0]);
      BinaryRestStep(ts, p, left, terms[0], ends[0]);
      BinaryRestFolds(ts, ends[0], x, terms[1..], ends[1..]);
      FoldFirst(left, ts[p].kind, terms, ChainOps(ts, ends[0], ends[1..]));
      assert ChainEnd(ends[0], ends[1..]) == ChainEnd(p, ends);
    }
  }

  /** The eight operators `+ - == > < * / %` share one level and group to the left: a term
      followed by a chain of operators and terms parses to the left-nested tree, whatever the
      operators. */
  lemma BinaryLeftAssociative(ts: seq<Token>, pos: nat, first: Expr, p: nat, terms: seq<Expr>,
                              ends: seq<nat>)
    requires pos <= |ts| && Term(ts, pos) == Ok((first, p)) && ChainFrom(ts, p, terms, ends)
    ensures Binary(ts, pos)
            == Ok((LeftNested([first] + terms, ChainOps(ts, p, ends)), ChainEnd(p, ends)))
  {
    BinaryFrom(ts, pos, first, p);
    BinaryRestFolds(ts, p, first, terms, ends);
  }

  /** From the operator at `p` on, `ts` holds `and`/`or` operators each followed by a
      binary-level operand: the `i`-th operand is `operands[i]` and ends at `ends[i]`; after
      the last one comes neither `and` nor `or`. */
  predicate LogicChainFrom(ts: seq<Token>, p: nat, operands: seq<Expr>, ends: seq<nat>)
    decreases |operands|
  {
    && |operands| == |ends|
    && (operands == [] ==> !(p < |ts| && IsLogicOp(ts[p].kind)))
    && (operands != [] ==>
          && p < |ts| && IsLogicOp(ts[p].kind) && Binary(ts, p + 1) == Ok((operands[0], ends[0]))
          && LogicChainFrom(ts, ends[0], operands[1..], ends[1..]))
  }

  /** The loop of `parse_logic`, entered with the tree `left` before such a chain, finishes
      the left-nested tree. */
  lemma {:induction false} LogicRestFolds(ts: seq<Token>, p: nat, left: Expr, operands: seq<Expr>,
                                           ends: seq<nat>)
    requires p <= |ts| && LogicChainFrom(ts, p, operands, ends)
    ensures LogicRest(ts, p, left)
            == Ok((LeftNested([left] + operands, ChainOps(ts, p, ends)), ChainEnd(p, ends)))
    decreases |operands|
  {
    if operands == [] {
      LogicRestStop(ts, p, left);
    } else {
      var x := BinOp(left, ts[p].kind, operands[0]);
      LogicRestStep(ts, p, left, operands[0], ends[0]);
      LogicRestFolds(ts, ends[0], x, operands[1..], ends[1..]);
      FoldFirst(left, ts[p].kind, operands, ChainOps(ts, ends[0], ends[1..]));
      assert ChainEnd(ends[0], ends[1..]) == ChainEnd(p, ends);
    }
  }

  /** `and` and `or` share one level below the binary operators and group to the left: a
      binary-level operand followed by a chain of `and`/`or` and operands parses to the
      left-nested tree over those operands, whatever the mix of `and` and `or`. */
  lemma LogicLeftAssociative(ts: seq<Token>, pos: nat, first: Expr, p: nat, operands: seq<Expr>,
                             ends: seq<nat>)
    requires pos <= |ts| && Binary(ts, pos) == Ok((first, p)) && LogicChainFrom(ts, p, operands, ends)
    ensures Expression(ts, pos)
            == Ok((LeftNested([first] + operands, ChainOps(ts, p, ends)), ChainEnd(p, ends)))
  {
    LogicFrom(ts, pos, first, p);
    LogicRestFolds(ts, p, first, operands, ends);
  }

  /** For instance `1 + 2 * 3` is `(1 + 2) * 3`: there is no precedence among the binary
      operators. */
  lemma NoPrecedence(ts: seq<Token>, pos: nat, a: Expr, p1: nat, b: Expr, p2: nat, c: Expr, p3: nat)
    requires pos <= |ts| && Term(ts, pos) == Ok((a, p1))
    requires p1 < |ts| && IsBinaryOp(ts[p1].kind) && Term(ts, p1 + 1) == Ok((b, p2))
    requires p2 < |ts| && IsBinaryOp(ts[p2].kind) && Term(ts, p2 + 1) == Ok((c, p3))
    requires EndsAt(ts, p3)
    ensures Expression(ts, pos) == Ok((BinOp(BinOp(a, ts[p1].kind, b), ts[p2].kind, c), p3))
  {
    var x := BinOp(a, ts[p1].kind, b);
    var y := BinOp(x, ts[p2].kind, c);
    BinaryFrom(ts, pos, a, p1);
    BinaryRestStep(ts, p1, a, b, p2);
    BinaryRestStep(ts, p2, x, c, p3);
    BinaryRestStop(ts, p3, y);
    LogicFrom(ts, pos, y, p3);
    LogicRestStop(ts, p3, y);
  }

  /** `and` and `or` form a lower level of their own: `a op b and c` is `(a op b) and c`. */
  lemma LogicBelowBinary(ts: seq<Token>, pos: nat, a: Expr, p1: nat, b: Expr, p2: nat, c: Expr,
                         p3: nat)
    requires pos <= |ts| && Term(ts, pos) == Ok((a, p1))
    requires p1 < |ts| && IsBinaryOp(ts[p1].kind) && Term(ts, p1 + 1) == Ok((b, p2))
    requires p2 < |ts| && IsLogicOp(ts[p2].kind) && Term(ts, p2 + 1) == Ok((c, p3))
    requires EndsAt(ts, p3)
    ensures Expression(ts, pos) == Ok((BinOp(BinOp(a, ts[p1].kind, b), ts[p2].kind, c), p3))
  {
    var x := BinOp(a, ts[p1].kind, b);
    BinaryFrom(ts, pos, a, p1);
    BinaryRestStep(ts, p1, a, b, p2);
    BinaryRestStop(ts, p2, x);
    BinaryFrom(ts, p2 + 1, c, p3);
    BinaryRestStop(ts, p3, c);
    LogicFrom(ts, pos, x, p2);
    LogicRestStep(ts, p2, x, c, p3);
    LogicRestStop(ts, p3, BinOp(x, ts[p2].kind, c));
  }

  /** ... and `a and b op c` is `a and (b op c)`. */
  lemma LogicAboveBinary(ts: seq<Token>, pos: nat, a: Expr, p1: nat, b: Expr, p2: nat, c: Expr,
                         p3: nat)
    requires pos <= |ts| && Term(ts, pos) == Ok((a, p1))
    requires p1 < |ts| && IsLogicOp(ts[p1].kind) && Term(ts, p1 + 1) == Ok((b, p2))
    requires p2 < |ts| && IsBinaryOp(ts[p2].kind) && Term(ts, p2 + 1) == Ok((c, p3))
    requires EndsAt(ts, p3)
    ensures Expression(ts, pos) == Ok((BinOp(a, ts[p1].kind, BinOp(b, ts[p2].kind, c)), p3))
  {
    var z := BinOp(b, ts[p2].kind, c);
    BinaryFrom(ts, pos, a, p1);
    BinaryRestStop(ts, p1, a);
    BinaryFrom(ts, p1 + 1, b, p2);
    BinaryRestStep(ts, p2, b, c, p3);
    BinaryRestStop(ts, p3, z);
    LogicFrom(ts, pos, a, p1);
    LogicRestStep(ts, p1, a, z, p3);
    LogicRestStop(ts, p3, BinOp(a, ts[p1].kind, z));
  }

  /** A parenthesised expression is the inner node itself: parentheses regroup but add no node
      of their own. */
  lemma ParenthesesAddNoNode(ts: seq<Token>, pos: nat, inner: Expr, q: nat)
    requires pos < |ts| && ts[pos].kind == Op(LPAREN) && Expression(ts, pos + 1) == Ok((inner, q))
    requires At(ts, q, Op(RPAREN))
    ensures Term(ts, pos) == Ok((inner, q + 1))
  {
  }

  /** So `(a op1 b) op2 c` is the same tree as `a op1 b op2 c`. */
  lemma RedundantParentheses(ts: seq<Token>, pos: nat, a: Expr, p1: nat, b: Expr, p2: nat,
                             c: Expr, p3: nat)
    requires pos < |ts| && ts[pos].kind == Op(LPAREN) && Term(ts, pos + 1) == Ok((a, p1))
    requires p1 < |ts| && IsBinaryOp(ts[p1].kind) && Term(ts, p1 + 1) == Ok((b, p2))
    requires At(ts, p2, Op(RPAREN))
    requires p2 + 1 < |ts| && IsBinaryOp(ts[p2 + 1].kind) && Term(ts, p2 + 2) == Ok((c, p3))
    requires EndsAt(ts, p3)
    ensures Expression(ts, pos) == Ok((BinOp(BinOp(a, ts[p1].kind, b), ts[p2 + 1].kind, c), p3))
  {
    var x := BinOp(a, ts[p1].kind, b);
    OneOperator(ts, pos + 1, a, p1, b, p2);
    ParenthesesAddNoNode(ts, pos, x, p2);
    OneOperator(ts, pos, x, p2 + 1, c, p3);
  }

  /** Two operands joined by one arithmetic or comparison operator form one node. */
  lemma OneOperator(ts: seq<Token>, pos: nat, a: Expr, p1: nat, b: Expr, p2: nat)
    requires pos <= |ts| && Term(ts, pos) == Ok((a, p1))
    requires p1 < |ts| && IsBinaryOp(ts[p1].kind) && Term(ts, p1 + 1) == Ok((b, p2))
    requires EndsAt(ts, p2)
    ensures Expression(ts, pos) == Ok((BinOp(a, ts[p1].kind, b), p2))
  {
    var x := BinOp(a, ts[p1].kind, b);
    BinaryFrom(ts, pos, a, p1);
    BinaryRestStep(ts, p1, a, b, p2);
    BinaryRestStop(ts, p2, x);
    LogicFrom(ts, pos, x, p2);
    LogicRestStop(ts, p2, x);
  }

  /** A name is a call exactly when `(` follows it, and a variable otherwise. */
  lemma CallOrVariable(ts: seq<Token>, pos: nat)
    requires pos < |ts| && ts[pos].kind == IDENTIFIER && Term(ts, pos).Ok?
    ensures var e := Term(ts, pos).value.0;
            && (e.Call? <==> At(ts, pos + 1, Op(LPAREN)))
            && (e.Call? ==> e.callee == ts[pos].value.text)
            && (!e.Call? ==> e == Variable(ts[pos].value.text) && Term(ts, pos).value.1 == pos + 1)
  {
  }

  /** A term that fails is the failure of the whole expression. */
  lemma TermErrorIsExpressionError(ts: seq<Token>, pos: nat)
    requires pos <= |ts| && Term(ts, pos).Err?
    ensures Expression(ts, pos) == Err(Term(ts, pos).error)
  {
    assert Binary(ts, pos) == Err(Term(ts, pos).error);
    assert Logic(ts, pos) == Err(Term(ts, pos).error);
  }

  /** `range` is a keyword and no term starts with it, so the builtin `range` is unreachable
      from an expression or an expression statement. */
  lemma RangeStartsNoExpression(ts: seq<Token>, pos: nat)
    requires pos < |ts| && ts[pos].kind == Kw(RANGE)
    ensures Expression(ts, pos) == Err(ExpressionExpected(Some(ts[pos])))
    ensures Statement(ts, pos) == Err(ExpressionExpected(Some(ts[pos])))
  {
    TermErrorIsExpressionError(ts, pos);
  }

  /** A boolean literal is true exactly when its token's text is "TRUE". */
  lemma BooleanLiteral(ts: seq<Token>, pos: nat)
    requires pos < |ts| && (ts[pos].kind == Kw(TRUE) || ts[pos].kind == Kw(FALSE))
    ensures Term(ts, pos) == Ok((Literal(LBool(ts[pos].value == Text("TRUE"))), pos + 1))
  {
  }

  // ---------------------------------------------------------------------------
  // Commas

  /** Operand tokens, each followed by at most one comma. */
  predicate ArgList(seg: seq<Token>)
    decreases |seg|
  {
    seg == []
    || (IsAtom(seg[0])
        && if |seg| > 1 && seg[1].kind == Op(COMMA) then ArgList(seg[2..]) else ArgList(seg[1..]))
  }

  /** The operands of `seg`, commas dropped. */
  function Operands(seg: seq<Token>): seq<Expr>
  {
    if seg == [] then []
    else if IsAtom(seg[0]) then [AtomOf(seg[0])] + Operands(seg[1..])
    else Operands(seg[1..])
  }

  /** One turn of the argument loop. */
  lemma ArgsStep(ts: seq<Token>, pos: nat, acc: seq<Expr>, e: Expr, q: nat)
    requires pos < |ts| && ts[pos].kind != Op(RPAREN) && Expression(ts, pos) == Ok((e, q)) && q < |ts|
    ensures Args(ts, pos, acc) == Args(ts, if ts[q].kind == Op(COMMA) then q + 1 else q, acc + [e])
  {
  }

  /** The head of a nonempty argument list, and where the rest starts. */
  lemma ArgListHead(ts: seq<Token>, pos: nat, q: nat)
    requires pos < q < |ts| && ts[q].kind == Op(RPAREN) && ArgList(ts[pos..q])
    ensures IsAtom(ts[pos])
    ensures ts[pos + 1].kind == Op(COMMA) || ts[pos + 1].kind == Op(RPAREN) || IsAtom(ts[pos + 1])
    ensures var next := if ts[pos + 1].kind == Op(COMMA) then pos + 2 else pos + 1;
            && next <= q && ArgList(ts[next..q])
            && Operands(ts[pos..q]) == [AtomOf(ts[pos])] + Operands(ts[next..q])
  {
    var seg := ts[pos..q];
    assert seg[0] == ts[pos] && seg[1..] == ts[pos + 1..q];
    if pos + 1 < q && ts[pos + 1].kind == Op(COMMA) {
      HeadThenComma(seg);
      assert seg[2..] == ts[pos + 2..q];
    } else if pos + 1 < q {
      assert seg[1] == ts[pos + 1];
    }
  }

  /** An operand then a comma: the rest of the list starts after the comma. */
  lemma HeadThenComma(seg: seq<Token>)
    requires |seg| > 1 && seg[1].kind == Op(COMMA) && ArgList(seg)
    ensures IsAtom(seg[0]) && ArgList(seg[2..])
    ensures Operands(seg) == [AtomOf(seg[0])] + Operands(seg[2..])
  {
    assert seg[1..][0] == seg[1] && seg[1..][1..] == seg[2..];
  }

  /** Commas between printline and call arguments are taken when present but not required: an
      argument list up to `)` is its operands in order, with or without commas between them. */
  lemma {:induction false} ArgsCommasOptional(ts: seq<Token>, pos: nat, q: nat, acc: seq<Expr>)
    requires pos <= q < |ts| && ts[q].kind == Op(RPAREN) && ArgList(ts[pos..q])
    ensures Args(ts, pos, acc) == Ok((acc + Operands(ts[pos..q]), q))
    decreases q - pos
  {
    if pos == q {
      assert acc + Operands(ts[pos..q]) == acc;
    } else {
      ArgListHead(ts, pos, q);
      var e := AtomOf(ts[pos]);
      var next := if ts[pos + 1].kind == Op(COMMA) then pos + 2 else pos + 1;
      AtomExpression(ts, pos);
      ArgsStep(ts, pos, acc, e, pos + 1);
      ArgsCommasOptional(ts, next, q, acc + [e]);
      AppendAssociates(acc, [e], Operands(ts[next..q]));
    }
  }

  /** Names, each followed by at most one comma. */
  predicate ParamList(seg: seq<Token>)
    decreases |seg|
  {
    seg == []
    || (seg[0].kind == IDENTIFIER
        && if |seg| > 1 && seg[1].kind == Op(COMMA) then ParamList(seg[2..]) else ParamList(seg[1..]))
  }

  /** The names in `seg`, commas dropped. */
  function Names(seg: seq<Token>): seq<string>
  {
    if seg == [] then []
    else if seg[0].kind == IDENTIFIER then [seg[0].value.text] + Names(seg[1..])
    else Names(seg[1..])
  }

  /** The same for the parameters of `func`. */
  lemma {:induction false} ParamsCommasOptional(ts: seq<Token>, pos: nat, q: nat, acc: seq<string>)
    requires pos <= q < |ts| && ts[q].kind == Op(RPAREN) && ParamList(ts[pos..q])
    ensures Params(ts, pos, acc) == Ok((acc + Names(ts[pos..q]), q))
    decreases q - pos
  {
    if pos == q {
      assert acc + Names(ts[pos..q]) == acc;
    } else {
      ParamListHead(ts, pos, q);
      var name := ts[pos].value.text;
      var next := if ts[pos + 1].kind == Op(COMMA) then pos + 2 else pos + 1;
      assert Params(ts, pos, acc) == Params(ts, next, acc + [name]);
      ParamsCommasOptional(ts, next, q, acc + [name]);
      AppendAssociates(acc, [name], Names(ts[next..q]));
    }
  }

  /** The first name of a nonempty parameter list, and where the rest starts. */
  lemma ParamListHead(ts: seq<Token>, pos: nat, q: nat)
    requires pos < q < |ts| && ts[q].kind == Op(RPAREN) && ParamList(ts[pos..q])
    ensures ts[pos].kind == IDENTIFIER
    ensures var next := if ts[pos + 1].kind == Op(COMMA) then pos + 2 else pos + 1;
            && next <= q && ParamList(ts[next..q])
            && Names(ts[pos..q]) == [ts[pos].value.text] + Names(ts[next..q])
  {
    var seg := ts[pos..q];
    assert seg[0] == ts[pos] && seg[1..] == ts[pos + 1..q];
    if pos + 1 < q && ts[pos + 1].kind == Op(COMMA) {
      NameThenComma(seg);
      assert seg[2..] == ts[pos + 2..q];
    } else if pos + 1 < q {
      assert seg[1] == ts[pos + 1];
    }
  }

  /** A name then a comma: the rest of the list starts after the comma. */
  lemma NameThenComma(seg: seq<Token>)
    requires |seg| > 1 && seg[1].kind == Op(COMMA) && ParamList(seg)
    ensures seg[0].kind == IDENTIFIER && ParamList(seg[2..])
    ensures Names(seg) == [seg[0].value.text] + Names(seg[2..])
  {
    assert seg[1..][0] == seg[1] && seg[1..][1..] == seg[2..];
  }

  // ---------------------------------------------------------------------------
  // Statements, blocks and `return`

  /** The statements parsed so far are kept in front of the ones still to come. */
  function Prepend<T>(acc: seq<T>, r: Parsed<seq<T>>): Parsed<seq<T>>
  {
    match r
    case Ok((xs, p)) => Ok((acc + xs, p))
    case Err(e) => Err(e)
  }

  /** Keeping `acc` and then `x` in front is keeping `acc + [x]` in front. */
  lemma PrependTwice<T>(acc: seq<T>, x: T, r: Parsed<seq<T>>)
    ensures Prepend(acc, Prepend([x], r)) == Prepend(acc + [x], r)
  {
    if r.Ok? {
      assert acc + ([x] + r.value.0) == acc + [x] + r.value.0;
    }
  }

  /** One turn of the loop of `parse`. */
  lemma StatementsStep(ts: seq<Token>, pos: nat, acc: seq<Stmt>)
    requires pos < |ts| && ts[pos].kind != EOF
    ensures var r := Statement(ts, pos);
            r.Ok? ==> Statements(ts, pos, acc) == Statements(ts, r.value.1, acc + [r.value.0])
    ensures Statement(ts, pos).Err? ==> Statements(ts, pos, acc) == Err(Statement(ts, pos).error)
  {
  }

  /** `parse` keeps statements in source order: each new one goes after those already parsed. */
  lemma {:induction false} StatementsInOrder(ts: seq<Token>, pos: nat, acc: seq<Stmt>)
    requires pos <= |ts|
    ensures Statements(ts, pos, acc) == Prepend(acc, Statements(ts, pos, []))
    decreases |ts| - pos
  {
    if pos < |ts| && ts[pos].kind != EOF {
      var s := Statement(ts, pos);
      StatementsStep(ts, pos, acc);
      StatementsStep(ts, pos, []);
      if s.Ok? {
        StatementsInOrder(ts, s.value.1, acc + [s.value.0]);
        StatementsInOrder(ts, s.value.1, [s.value.0]);
        assert [] + [s.value.0] == [s.value.0];
        PrependTwice(acc, s.value.0, Statements(ts, s.value.1, []));
      }
    } else {
      assert acc + [] == acc;
    }
  }

  /** `parse` reads up to EOF or the end of the tokens, and no further. */
  lemma {:induction false} StatementsStopAtEOF(ts: seq<Token>, pos: nat, acc: seq<Stmt>)
    requires pos <= |ts| && Statements(ts, pos, acc).Ok?
    ensures var p := Statements(ts, pos, acc).value.1;
            p == |ts| || ts[p].kind == EOF
    decreases |ts| - pos
  {
    if pos < |ts| && ts[pos].kind != EOF {
      var s := Statement(ts, pos);
      StatementsStep(ts, pos, acc);
      StatementsStopAtEOF(ts, s.value.1, acc + [s.value.0]);
    }
  }

  /** A block is delimited by INDENT and DEDENT. */
  lemma BlockDelimited(ts: seq<Token>, pos: nat)
    requires pos <= |ts| && Block(ts, pos).Ok?
    ensures pos < |ts| && ts[pos].kind == INDENT
    ensures ts[Block(ts, pos).value.1 - 1].kind == DEDENT
  {
  }

  /** `return` has no value exactly when EOF, or the end of the tokens, follows it. */
  lemma ReturnWithoutValue(ts: seq<Token>, pos: nat)
    requires At(ts, pos, Kw(RETURN))
    ensures ReturnStatement(ts, pos) == Ok((Return(None), pos + 1))
            <==> pos + 1 == |ts| || ts[pos + 1].kind == EOF
  {
  }

  /** So a bare `return` that ends an indented block is a syntax error: the DEDENT after it is
      read as the start of an expression. */
  lemma BareReturnEndingBlock(ts: seq<Token>, pos: nat)
    requires pos + 2 < |ts| && ts[pos].kind == INDENT && ts[pos + 1].kind == Kw(RETURN)
    requires ts[pos + 2].kind == DEDENT
    ensures Block(ts, pos) == Err(ExpressionExpected(Some(ts[pos + 2])))
  {
    var e := ExpressionExpected(Some(ts[pos + 2]));
    TermErrorIsExpressionError(ts, pos + 2);
    assert ReturnStatement(ts, pos + 1) == Err(e);
    assert Statement(ts, pos + 1) == Err(e);
    assert BlockBody(ts, pos + 1, []) == Err(e);
  }

  // ---------------------------------------------------------------------------
  // Statement forms: the tree each statement builds from its parts, and the syntax error
  // that names the first token out of place

  /** `local NAME = e` is the assignment of `e` to NAME. */
  lemma AssignmentForm(ts: seq<Token>, pos: nat)
    requires pos <= |ts|
    ensures !At(ts, pos, Kw(LOCAL))
            ==> AssignmentStatement(ts, pos) == Err(Expected(Kw(LOCAL), Cur(ts, pos)))
    ensures At(ts, pos, Kw(LOCAL)) && !At(ts, pos + 1, IDENTIFIER)
            ==> AssignmentStatement(ts, pos) == Err(Expected(IDENTIFIER, Cur(ts, pos + 1)))
    ensures At(ts, pos, Kw(LOCAL)) && At(ts, pos + 1, IDENTIFIER) && !At(ts, pos + 2, Op(ASSIGN))
            ==> AssignmentStatement(ts, pos) == Err(Expected(Op(ASSIGN), Cur(ts, pos + 2)))
    ensures At(ts, pos, Kw(LOCAL)) && At(ts, pos + 1, IDENTIFIER) && At(ts, pos + 2, Op(ASSIGN))
            ==> match Expression(ts, pos + 3)
                case Ok((e, q)) => AssignmentStatement(ts, pos) == Ok((Assignment(ts[pos + 1].value.text, e), q))
                case Err(x) => AssignmentStatement(ts, pos) == Err(x)
  {
  }

  /** The header `for NAME in range(` of a for statement: the error names the first token that
      is out of place. */
  lemma ForHeader(ts: seq<Token>, pos: nat)
    requires pos <= |ts|
    ensures !At(ts, pos, Kw(FOR))
            ==> ForStatement(ts, pos) == Err(Expected(Kw(FOR), Cur(ts, pos)))
    ensures At(ts, pos, Kw(FOR)) && !At(ts, pos + 1, IDENTIFIER)
            ==> ForStatement(ts, pos) == Err(Expected(IDENTIFIER, Cur(ts, pos + 1)))
    ensures At(ts, pos, Kw(FOR)) && At(ts, pos + 1, IDENTIFIER) && !At(ts, pos + 2, Kw(IN))
            ==> ForStatement(ts, pos) == Err(Expected(Kw(IN), Cur(ts, pos + 2)))
    ensures At(ts, pos, Kw(FOR)) && At(ts, pos + 1, IDENTIFIER) && At(ts, pos + 2, Kw(IN))
            && !At(ts, pos + 3, Kw(RANGE))
            ==> ForStatement(ts, pos) == Err(Expected(Kw(RANGE), Cur(ts, pos + 3)))
    ensures At(ts, pos, Kw(FOR)) && At(ts, pos + 1, IDENTIFIER) && At(ts, pos + 2, Kw(IN))
            && At(ts, pos + 3, Kw(RANGE)) && !At(ts, pos + 4, Op(LPAREN))
            ==> ForStatement(ts, pos) == Err(Expected(Op(LPAREN), Cur(ts, pos + 4)))
  {
  }

  /** After its header, `for NAME in range(e): block` is the loop of NAME up to `e` over the
      block; an error in the bound or the block is the statement's error. */
  lemma ForForm(ts: seq<Token>, pos: nat)
    requires pos <= |ts|
    requires At(ts, pos, Kw(FOR)) && At(ts, pos + 1, IDENTIFIER) && At(ts, pos + 2, Kw(IN))
    requires At(ts, pos + 3, Kw(RANGE)) && At(ts, pos + 4, Op(LPAREN))
    ensures Expression(ts, pos + 5).Err? ==> ForStatement(ts, pos) == Err(Expression(ts, pos + 5).error)
    ensures Expression(ts, pos + 5).Ok? ==>
            var (e, q) := Expression(ts, pos + 5).value;
            && (!At(ts, q, Op(RPAREN)) ==> ForStatement(ts, pos) == Err(Expected(Op(RPAREN), Cur(ts, q))))
            && (At(ts, q, Op(RPAREN)) && !At(ts, q + 1, Op(COLON))
                ==> ForStatement(ts, pos) == Err(Expected(Op(COLON), Cur(ts, q + 1))))
            && (At(ts, q, Op(RPAREN)) && At(ts, q + 1, Op(COLON))
                ==> match Block(ts, q + 2)
                    case Ok((b, end)) => ForStatement(ts, pos) == Ok((For(ts[pos + 1].value.text, e, b), end))
                    case Err(x) => ForStatement(ts, pos) == Err(x))
  {
    if Expression(ts, pos + 5).Ok? {
      ForBoundParses(ts, pos);
    } else {
      ForBoundFails(ts, pos);
    }
  }

  /** An error in the bound of `for` is the statement's error. */
  lemma ForBoundFails(ts: seq<Token>, pos: nat)
    requires pos <= |ts|
    requires At(ts, pos, Kw(FOR)) && At(ts, pos + 1, IDENTIFIER) && At(ts, pos + 2, Kw(IN))
    requires At(ts, pos + 3, Kw(RANGE)) && At(ts, pos + 4, Op(LPAREN))
    requires Expression(ts, pos + 5).Err?
    ensures ForStatement(ts, pos) == Err(Expression(ts, pos + 5).error)
  {
  }

  /** The part of `for` after a bound that parses. */
  lemma ForBoundParses(ts: seq<Token>, pos: nat)
    requires pos <= |ts|
    requires At(ts, pos, Kw(FOR)) && At(ts, pos + 1, IDENTIFIER) && At(ts, pos + 2, Kw(IN))
    requires At(ts, pos + 3, Kw(RANGE)) && At(ts, pos + 4, Op(LPAREN))
    requires Expression(ts, pos + 5).Ok?
    ensures var (e, q) := Expression(ts, pos + 5).value;
            && (!At(ts, q, Op(RPAREN)) ==> ForStatement(ts, pos) == Err(Expected(Op(RPAREN), Cur(ts, q))))
            && (At(ts, q, Op(RPAREN)) && !At(ts, q + 1, Op(COLON))
                ==> ForStatement(ts, pos) == Err(Expected(Op(COLON), Cur(ts, q + 1))))
            && (At(ts, q, Op(RPAREN)) && At(ts, q + 1, Op(COLON))
                ==> match Block(ts, q + 2)
                    case Ok((b, end)) => ForStatement(ts, pos) == Ok((For(ts[pos + 1].value.text, e, b), end))
                    case Err(x) => ForStatement(ts, pos) == Err(x))
  {
    var e, q := Expression(ts, pos + 5).value.0, Expression(ts, pos + 5).value.1;
    ForAfterBound(ts, pos, e, q);
    assert Expression(ts, pos + 5).value == (e, q);
  }

  /** The part of `for` after its bound. */
  lemma ForAfterBound(ts: seq<Token>, pos: nat, e: Expr, q: nat)
    requires pos <= |ts|
    requires At(ts, pos, Kw(FOR)) && At(ts, pos + 1, IDENTIFIER) && At(ts, pos + 2, Kw(IN))
    requires At(ts, pos + 3, Kw(RANGE)) && At(ts, pos + 4, Op(LPAREN))
    requires Expression(ts, pos + 5) == Ok((e, q))
    ensures !At(ts, q, Op(RPAREN)) ==> ForStatement(ts, pos) == Err(Expected(Op(RPAREN), Cur(ts, q)))
    ensures At(ts, q, Op(RPAREN)) && !At(ts, q + 1, Op(COLON))
            ==> ForStatement(ts, pos) == Err(Expected(Op(COLON), Cur(ts, q + 1)))
    ensures At(ts, q, Op(RPAREN)) && At(ts, q + 1, Op(COLON))
            ==> match Block(ts, q + 2)
                case Ok((b, end)) => ForStatement(ts, pos) == Ok((For(ts[pos + 1].value.text, e, b), end))
                case Err(x) => ForStatement(ts, pos) == Err(x)
  {
  }

  /** `while (c): block` is the loop on `c` over the block; the error names the first token out
      of place, and an error in the condition or the block is the statement's error. */
  lemma WhileForm(ts: seq<Token>, pos: nat)
    requires pos <= |ts|
    ensures !At(ts, pos, Kw(WHILE))
            ==> WhileStatement(ts, pos) == Err(Expected(Kw(WHILE), Cur(ts, pos)))
    ensures At(ts, pos, Kw(WHILE)) && !At(ts, pos + 1, Op(LPAREN))
            ==> WhileStatement(ts, pos) == Err(Expected(Op(LPAREN), Cur(ts, pos + 1)))
    ensures At(ts, pos, Kw(WHILE)) && At(ts, pos + 1, Op(LPAREN)) && Expression(ts, pos + 2).Err?
            ==> WhileStatement(ts, pos) == Err(Expression(ts, pos + 2).error)
    ensures At(ts, pos, Kw(WHILE)) && At(ts, pos + 1, Op(LPAREN)) && Expression(ts, pos + 2).Ok? ==>
            var (c, q) := Expression(ts, pos + 2).value;
            && (!At(ts, q, Op(RPAREN)) ==> WhileStatement(ts, pos) == Err(Expected(Op(RPAREN), Cur(ts, q))))
            && (At(ts, q, Op(RPAREN)) && !At(ts, q + 1, Op(COLON))
                ==> WhileStatement(ts, pos) == Err(Expected(Op(COLON), Cur(ts, q + 1))))
            && (At(ts, q, Op(RPAREN)) && At(ts, q + 1, Op(COLON))
                ==> match Block(ts, q + 2)
                    case Ok((b, end)) => WhileStatement(ts, pos) == Ok((While(c, b), end))
                    case Err(x) => WhileStatement(ts, pos) == Err(x))
  {
  }

  /** `import "path"` and `import NAME` both import the text after the keyword; nothing after
      the keyword is a missing token, and any other token is reported where a name was
      expected. */
  lemma ImportForm(ts: seq<Token>, pos: nat)
    requires pos <= |ts|
    ensures !At(ts, pos, Kw(IMPORT))
            ==> ImportStatement(ts, pos) == Err(Expected(Kw(IMPORT), Cur(ts, pos)))
    ensures At(ts, pos, Kw(IMPORT)) && pos + 1 == |ts| ==> ImportStatement(ts, pos) == Err(NoToken)
    ensures At(ts, pos, Kw(IMPORT)) && (At(ts, pos + 1, STRING) || At(ts, pos + 1, IDENTIFIER))
            ==> ImportStatement(ts, pos) == Ok((Import(ts[pos + 1].value.text), pos + 2))
    ensures At(ts, pos, Kw(IMPORT)) && pos + 1 < |ts| && !At(ts, pos + 1, STRING)
            && !At(ts, pos + 1, IDENTIFIER)
            ==> ImportStatement(ts, pos) == Err(Expected(IDENTIFIER, Some(ts[pos + 1])))
  {
  }

  // ---------------------------------------------------------------------------
  // `if`

  /** `if (c): block` with neither `elif` nor `else` after the block is an `if` with no elif
      clauses and no else block, ending where the block ends. */
  lemma IfWithoutElse(ts: seq<Token>, pos: nat, c: Expr, q: nat)
    requires At(ts, pos, Kw(IF)) && At(ts, pos + 1, Op(LPAREN))
    requires Expression(ts, pos + 2) == Ok((c, q))
    requires At(ts, q, Op(RPAREN)) && At(ts, q + 1, Op(COLON)) && Block(ts, q + 2).Ok?
    requires !At(ts, Block(ts, q + 2).value.1, Kw(ELIF)) && !At(ts, Block(ts, q + 2).value.1, Kw(ELSE))
    ensures var (b, end) := Block(ts, q + 2).value;
            IfStatement(ts, pos) == Ok((If(c, b, [], NoElse), end))
  {
    var end := Block(ts, q + 2).value.1;
    assert Elifs(ts, end, []) == Ok(([], end));
    assert ElseClause(ts, end) == Ok((NoElse, end));
  }

  /** One turn of the `elif` loop. */
  lemma ElifsStep(ts: seq<Token>, pos: nat, acc: seq<Elif>)
    requires At(ts, pos, Kw(ELIF))
    ensures var r := ElifClause(ts, pos + 1);
            r.Ok? ==> Elifs(ts, pos, acc) == Elifs(ts, r.value.1, acc + [r.value.0])
    ensures ElifClause(ts, pos + 1).Err? ==> Elifs(ts, pos, acc) == Err(ElifClause(ts, pos + 1).error)
  {
  }

  /** `elif` clauses are kept in source order. */
  lemma {:induction false} ElifsInOrder(ts: seq<Token>, pos: nat, acc: seq<Elif>)
    requires pos <= |ts|
    ensures Elifs(ts, pos, acc) == Prepend(acc, Elifs(ts, pos, []))
    decreases |ts| - pos
  {
    if At(ts, pos, Kw(ELIF)) {
      var clause := ElifClause(ts, pos + 1);
      ElifsStep(ts, pos, acc);
      ElifsStep(ts, pos, []);
      if clause.Ok? {
        var e := clause.value.0;
        ElifsInOrder(ts, clause.value.1, acc + [e]);
        ElifsInOrder(ts, clause.value.1, [e]);
        assert [] + [e] == [e];
        PrependTwice(acc, e, Elifs(ts, clause.value.1, []));
      }
    } else {
      assert acc + [] == acc;
    }
  }

  /** The else block is present exactly when `else` follows the elif clauses. */
  lemma ElseWhenElse(ts: seq<Token>, pos: nat)
    requires pos <= |ts| && ElseClause(ts, pos).Ok?
    ensures ElseClause(ts, pos).value.0.Else? <==> At(ts, pos, Kw(ELSE))
    ensures ElseClause(ts, pos).value.0.NoElse? ==> ElseClause(ts, pos).value.1 == pos
  {
  }

  // ---------------------------------------------------------------------------
  // `table`

  /** The entries of a table have distinct keys, and a key keeps the place of its first
      occurrence. */
  lemma {:induction false} PairsUniqueKeys(ts: seq<Token>, pos: nat, acc: seq<Entry<Expr>>)
    requires pos <= |ts| && UniqueKeys(acc) && Pairs(ts, pos, acc).Ok?
    ensures UniqueKeys(Pairs(ts, pos, acc).value.0)
    ensures Keys(acc) <= Keys(Pairs(ts, pos, acc).value.0)
    decreases |ts| - pos
  {
    if pos < |ts| && ts[pos].kind != Op(RBRACKET) {
      assert Pair(ts, pos).Ok? && Pair(ts, pos).value.1 < |ts|;
      var (entry, q) := Pair(ts, pos).value;
      var next := if ts[q].kind == Op(COMMA) then q + 1 else q;
      var pairs := Put(acc, entry.key, entry.value);
      PairsStep(ts, pos, acc, entry, q);
      PutUnique(acc, entry.key, entry.value);
      PutKeys(acc, entry.key, entry.value);
      PairsUniqueKeys(ts, next, pairs);
      PrefixTransitive(Keys(acc), Keys(pairs), Keys(Pairs(ts, next, pairs).value.0));
    }
  }

  /** `table NAME = {...}` is an assignment of a table to NAME, and its keys are distinct. */
  lemma TableIsAssignment(ts: seq<Token>, pos: nat)
    requires pos <= |ts| && TableStatement(ts, pos).Ok?
    ensures var s := TableStatement(ts, pos).value.0;
            && s.Assignment? && s.name == ts[pos + 1].value.text
            && s.value.Table? && UniqueKeys(s.value.pairs)
  {
    assert UniqueKeys<Expr>([]);
    PairsUniqueKeys(ts, pos + 4, []);
  }

  /** One turn of the entry loop of `parse_table`. */
  lemma PairsStep(ts: seq<Token>, pos: nat, acc: seq<Entry<Expr>>, entry: Entry<Expr>, q: nat)
    requires pos < |ts| && ts[pos].kind != Op(RBRACKET) && Pair(ts, pos) == Ok((entry, q)) && q < |ts|
    ensures Pairs(ts, pos, acc)
            == Pairs(ts, if ts[q].kind == Op(COMMA) then q + 1 else q, Put(acc, entry.key, entry.value))
  {
  }

  /** A repeated key keeps its last value: `{"k": a, "k": b}` has the one entry `"k": b`. */
  lemma RepeatedKeyKeepsLastValue(ts: seq<Token>, pos: nat, a: Expr, q1: nat, b: Expr, q2: nat)
    requires pos + 2 <= |ts| && ts[pos].kind == STRING && ts[pos + 1].kind == Op(COLON)
    requires Expression(ts, pos + 2) == Ok((a, q1))
    requires q1 + 3 <= |ts| && ts[q1].kind == Op(COMMA) && ts[q1 + 1].kind == STRING
    requires ts[q1 + 1].value == ts[pos].value && ts[q1 + 2].kind == Op(COLON)
    requires Expression(ts, q1 + 3) == Ok((b, q2)) && At(ts, q2, Op(RBRACKET))
    ensures Pairs(ts, pos, []) == Ok(([Entry(ts[pos].value.text, b)], q2))
  {
    var k := ts[pos].value.text;
    assert Pair(ts, pos) == Ok((Entry(k, a), q1));
    assert Pair(ts, q1 + 1) == Ok((Entry(k, b), q2));
    PairsStep(ts, pos, [], Entry(k, a), q1);
    PairsStep(ts, q1 + 1, [Entry(k, a)], Entry(k, b), q2);
    assert Put([], k, a) == [Entry(k, a)];
    assert Put([Entry(k, a)], k, b) == [Entry(k, b)] + [Entry(k, a)][1..] == [Entry(k, b)];
    assert Pairs(ts, q2, [Entry(k, b)]) == Ok(([Entry(k, b)], q2));
  }

  /** The entries of a table literal in source order, as read before any of them is assigned:
      each is a `"key": value` pair, optionally followed by a comma, and `}` ends them. */
  function Entries(ts: seq<Token>, pos: nat): Parsed<seq<Entry<Expr>>>
    requires pos <= |ts|
    decreases |ts| - pos
  {
    if pos == |ts| then Err(NoToken)
    else if ts[pos].kind == Op(RBRACKET) then Ok(([], pos))
    else
      var pair :- Pair(ts, pos);
      if pair.1 == |ts| then Err(NoToken)
      else
        var rest :- Entries(ts, if ts[pair.1].kind == Op(COMMA) then pair.1 + 1 else pair.1);
        Ok(([pair.0] + rest.0, rest.1))
  }

  /** The dictionary that the entries read by `r`, assigned in order into `acc`, build. */
  function Assigned(acc: seq<Entry<Expr>>, r: Parsed<seq<Entry<Expr>>>): Parsed<seq<Entry<Expr>>>
  {
    match r
    case Ok((es, q)) => Ok((PutAll(acc, es), q))
    case Err(e) => Err(e)
  }

  /** Reading one entry and then the rest assigns that entry first. */
  lemma EntriesStep(ts: seq<Token>, pos: nat, acc: seq<Entry<Expr>>, entry: Entry<Expr>, q: nat)
    requires pos < |ts| && ts[pos].kind != Op(RBRACKET) && Pair(ts, pos) == Ok((entry, q)) && q < |ts|
    ensures Assigned(acc, Entries(ts, pos))
            == Assigned(Put(acc, entry.key, entry.value), Entries(ts, if ts[q].kind == Op(COMMA) then q + 1 else q))
  {
    var next := if ts[q].kind == Op(COMMA) then q + 1 else q;
    if Entries(ts, next).Ok? {
      PutAllFirst(acc, entry, Entries(ts, next).value.0);
    }
  }

  /** The entry loop of `parse_table` assigns the literal's entries in source order: it fails
      exactly when reading them fails, with the same error, and otherwise ends where they end. */
  lemma {:induction false} PairsAssignsEntries(ts: seq<Token>, pos: nat, acc: seq<Entry<Expr>>)
    requires pos <= |ts|
    ensures Pairs(ts, pos, acc) == Assigned(acc, Entries(ts, pos))
    decreases |ts| - pos
  {
    if pos < |ts| && ts[pos].kind != Op(RBRACKET) && Pair(ts, pos).Ok? && Pair(ts, pos).value.1 < |ts| {
      var (e, q) := Pair(ts, pos).value;
      var next := if ts[q].kind == Op(COMMA) then q + 1 else q;
      PairsStep(ts, pos, acc, e, q);
      PairsAssignsEntries(ts, next, Put(acc, e.key, e.value));
      EntriesStep(ts, pos, acc, e, q);
    } else if pos == |ts| || ts[pos].kind == Op(RBRACKET) {
      assert PutAll(acc, []) == acc;
    }
  }

  /** So in the table a literal builds, each key maps to the value of its last entry, and the
      keys are listed once each, in the order of their first entries. */
  lemma TableKeepsLastValues(ts: seq<Token>, pos: nat)
    requires pos <= |ts| && Entries(ts, pos).Ok?
    ensures var (es, q) := Entries(ts, pos).value;
            && Pairs(ts, pos, []) == Ok((PutAll([], es), q))
            && Keys(PutAll([], es)) == NewKeys([], Keys(es))
            && forall k :: k in Keys(es) ==> Get(PutAll([], es), k) == Some(LastValue(es, k))
  {
    var es := Entries(ts, pos).value.0;
    PairsAssignsEntries(ts, pos, []);
    PutAllKeys([], es);
    assert Keys<Expr>([]) == [];
    forall k | k in Keys(es)
      ensures Get(PutAll([], es), k) == Some(LastValue(es, k))
    {
      PutAllGet([], es, k);
    }
  }
}
