/** Properties of the FFling evaluator: scoping, the choice of an `if` branch, loop counting,
    Break/Continue/Return propagation, call binding, and the operators. */
module InterpreterProps {
  import opened Results
  import opened Tokens
  import opened Dicts
  import opened Ast
  import opened Interpreting

  // ---------------------------------------------------------------------------
  // Unfolding steps

  /** A block runs its first statement, then the rest if the first completed. */
  lemma BlockHead(s: Stmt, rest: seq<Stmt>, st: State, fuel: nat)
    requires |st.frames| > 0
    ensures ExecBlock([s] + rest, st, fuel) ==
      var (o, st1) := Exec(s, st, fuel);
      if o != Normal then (o, st1) else ExecBlock(rest, st1, fuel)
  {
    assert ([s] + rest)[1..] == rest;
  }

  /** A block of one statement ends as that statement does. */
  lemma BlockOfOne(s: Stmt, st: State, fuel: nat)
    requires |st.frames| > 0
    ensures ExecBlock([s], st, fuel) == Exec(s, st, fuel)
  {
    BlockHead(s, [], st, fuel);
    assert [s] + [] == [s];
  }

  /** A list of one argument evaluates that argument. */
  lemma ArgsOfOne(e: Expr, st: State, fuel: nat)
    requires |st.frames| > 0
    ensures EvalList([e], [], st, fuel) ==
      var (v, st1) := Eval(e, st, fuel);
      if v.Abort? then (Abort(v.signal), st1) else (Done([v.value]), st1)
  {
    assert [e][1..] == [];
    var (v, st1) := Eval(e, st, fuel);
    if v.Done? {
      assert [] + [v.value] == [v.value];
    }
  }

  /** The innermost frame comes first; a new frame hides nothing it does not bind. */
  lemma LookupPushed(st: State, frame: map<string, Value>, name: string)
    ensures Lookup(Push(st, frame).frames, name) ==
      if name in frame then Some(frame[name]) else Lookup(st.frames, name)
    ensures Pop(Push(st, frame)) == st
  {
    assert Push(st, frame).frames[..|st.frames|] == st.frames;
  }

  // ---------------------------------------------------------------------------
  // The scope chain

  /** `get` answers from the innermost frame that holds the name. */
  lemma {:induction false} LookupInnermost(frames: seq<map<string, Value>>, name: string, i: nat)
    requires i < |frames| && name in frames[i]
    requires forall j :: i < j < |frames| ==> name !in frames[j]
    ensures Lookup(frames, name) == Some(frames[i][name])
  {
    if i < |frames| - 1 {
      var inner := frames[..|frames| - 1];
      assert forall j :: i < j < |inner| ==> inner[j] == frames[j];
      LookupInnermost(inner, name, i);
    }
  }

  /** `set` writes the innermost frame only: the name now reads back as the new value, every
      other name reads as before, and the enclosing frames are untouched. */
  lemma SetIsLocal(frames: seq<map<string, Value>>, name: string, v: Value)
    requires |frames| > 0
    ensures Bind(frames, name, v)[..|frames| - 1] == frames[..|frames| - 1]
    ensures Lookup(Bind(frames, name, v), name) == Some(v)
    ensures forall other :: other != name ==> Lookup(Bind(frames, name, v), other) == Lookup(frames, other)
  {
    var b := Bind(frames, name, v);
    assert b[..|b| - 1] == frames[..|frames| - 1];
  }

  // ---------------------------------------------------------------------------
  // `if`

  /** What the in-order evaluation of an `if` statement's conditions selects. */
  datatype Choice = Chosen(block: seq<Stmt>) | NoneChosen | Raised(signal: Outcome)

  /** Evaluates the conditions of `clauses` in order and stops at the first truthy one,
      without running any block. */
  function Choose(clauses: seq<Elif>, st: State, fuel: nat): (r: (Choice, State))
    requires |st.frames| > 0
    ensures r.1.frames == st.frames
  {
    if clauses == [] then (NoneChosen, st)
    else
      var (c, st1) := Eval(clauses[0].condition, st, fuel);
      if c.Abort? then (Raised(c.signal), st1)
      else if Truthy(c.value) then (Chosen(clauses[0].block), st1)
      else Choose(clauses[1..], st1, fuel)
  }

  /** The elif loop runs exactly the block that `Choose` selects. */
  lemma {:induction false} ElifChainChooses(elifs: seq<Elif>, st: State, fuel: nat)
    requires |st.frames| > 0
    ensures ElifChain(elifs, st, fuel) ==
      var (ch, st1) := Choose(elifs, st, fuel);
      match ch
      case Raised(o) => (Some(o), st1)
      case Chosen(b) => var (o, st2) := ExecBlock(b, st1, fuel); (Some(o), st2)
      case NoneChosen => (None, st1)
  {
    if elifs != [] {
      var (c, st1) := Eval(elifs[0].condition, st, fuel);
      if c.Done? && !Truthy(c.value) {
        ElifChainChooses(elifs[1..], st1, fuel);
      }
    }
  }

  /** An `if` statement runs the block of its first clause (the `if` itself, then the elifs in
      order) whose condition is truthy, or else its else block; all in the same frame. */
  lemma IfRunsFirstTruthyClause(
    condition: Expr, thenBlock: seq<Stmt>, elifs: seq<Elif>, elseBlock: ElseBlock, st: State, fuel: nat)
    requires |st.frames| > 0
    ensures Exec(If(condition, thenBlock, elifs, elseBlock), st, fuel) ==
      var (ch, st1) := Choose([Elif(condition, thenBlock)] + elifs, st, fuel);
      match ch
      case Raised(o) => (o, st1)
      case Chosen(b) => ExecBlock(b, st1, fuel)
      case NoneChosen => if elseBlock.Else? then ExecBlock(elseBlock.block, st1, fuel) else (Normal, st1)
  {
    var clauses := [Elif(condition, thenBlock)] + elifs;
    assert clauses[1..] == elifs;
    var (c, st1) := Eval(condition, st, fuel);
    if c.Done? && !Truthy(c.value) {
      ElifChainChooses(elifs, st1, fuel);
    }
  }

  /** An `if` on the literal false with no elif clauses and no else block does nothing. */
  lemma FalseConditionSkips(thenBlock: seq<Stmt>, st: State, fuel: nat)
    requires |st.frames| > 0
    ensures Exec(If(Literal(LBool(false)), thenBlock, [], NoElse), st, fuel) == (Normal, st)
  {
    var clauses := [Elif(Literal(LBool(false)), thenBlock)];
    IfRunsFirstTruthyClause(Literal(LBool(false)), thenBlock, [], NoElse, st, fuel);
    assert Eval(Literal(LBool(false)), st, fuel) == (Done(VBool(false)), st);
    assert [Elif(Literal(LBool(false)), thenBlock)] + [] == clauses && clauses[1..] == [];
  }

  // ---------------------------------------------------------------------------
  // `for`

  /** The lines `printline(i)` prints for i = lo .. hi - 1. */
  function Counting(lo: int, hi: int): (lines: seq<seq<Value>>)
    ensures |lines| == if lo < hi then hi - lo else 0
    decreases hi - lo
  {
    if lo >= hi then [] else [[VInt(lo)]] + Counting(lo + 1, hi)
  }

  /** `for v in range(n): printline(v)` prints 0, 1, ..., n - 1 in order, nothing when
      n <= 0, and leaves the frames as they were. */
  lemma {:induction false} ForCountsUp(v: string, i: int, n: int, st: State, fuel: nat)
    requires |st.frames| > 0 && "printline" in st.frames[0]
    requires st.frames[0]["printline"] == VBuiltin(PrintLine)
    ensures ForLoop(v, i, n, [Printline([Variable(v)])], st, fuel)
         == (Normal, State(st.frames, st.output + Counting(i, n)))
    decreases n - i
  {
    if i < n {
      var inner := Push(st, map[v := VInt(i)]);
      PrintsCounter(v, i, st, fuel);
      var next := State(st.frames, st.output + [[VInt(i)]]);
      assert Pop(State(inner.frames, inner.output + [[VInt(i)]])) == next;
      ForCountsUp(v, i + 1, n, next, fuel);
      AppendAssociates(st.output, [[VInt(i)]], Counting(i + 1, n));
    } else {
      assert st.output + [] == st.output;
    }
  }

  /** One iteration of that loop prints the value of its counter. */
  lemma PrintsCounter(v: string, i: int, st: State, fuel: nat)
    requires |st.frames| > 0 && "printline" in st.frames[0]
    requires st.frames[0]["printline"] == VBuiltin(PrintLine)
    ensures var inner := Push(st, map[v := VInt(i)]);
            ExecBlock([Printline([Variable(v)])], inner, fuel)
            == (Normal, State(inner.frames, inner.output + [[VInt(i)]]))
  {
    var inner := Push(st, map[v := VInt(i)]);
    LookupPushed(st, map[v := VInt(i)], v);
    assert Eval(Variable(v), inner, fuel) == (Done(VInt(i)), inner);
    ArgsOfOne(Variable(v), inner, fuel);
    assert inner.frames[0] == st.frames[0];
    assert Exec(Printline([Variable(v)]), inner, fuel) == (Normal, State(inner.frames, inner.output + [[VInt(i)]]));
    BlockOfOne(Printline([Variable(v)]), inner, fuel);
  }

  /** `break` as the first statement of the body ends the loop at once: the rest of the body
      and the remaining iterations never run. */
  lemma BreakEndsFor(v: string, i: int, n: int, rest: seq<Stmt>, st: State, fuel: nat)
    requires |st.frames| > 0
    ensures ForLoop(v, i, n, [Break] + rest, st, fuel) == (Normal, st)
  {
    if i < n {
      var inner := Push(st, map[v := VInt(i)]);
      BlockHead(Break, rest, inner, fuel);
      assert Pop(inner) == st;
    }
  }

  /** `continue` as the first statement of the body skips the rest of the body in every
      iteration, and the loop still runs to its bound. */
  lemma {:induction false} ContinueSkipsRest(v: string, i: int, n: int, rest: seq<Stmt>, st: State, fuel: nat)
    requires |st.frames| > 0
    ensures ForLoop(v, i, n, [Continue] + rest, st, fuel) == (Normal, st)
    decreases n - i
  {
    if i < n {
      var inner := Push(st, map[v := VInt(i)]);
      BlockHead(Continue, rest, inner, fuel);
      assert Pop(inner) == st;
      ContinueSkipsRest(v, i + 1, n, rest, st, fuel);
    }
  }

  // ---------------------------------------------------------------------------
  // `while`

  /** The condition is evaluated in the enclosing frame while the body assigns in a fresh
      frame, so `while (x): local x = False` never sees its own assignment: with a truthy `x`
      it runs until the fuel is spent, and leaves the state as it was. */
  lemma {:induction false} WhileBodyCannotFalsifyCondition(x: string, st: State, fuel: nat)
    requires |st.frames| > 0
    requires Lookup(st.frames, x).Some? && Truthy(Lookup(st.frames, x).value)
    ensures WhileLoop(Variable(x), [Assignment(x, Literal(LBool(false)))], st, fuel) == (Fail(OutOfFuel), st)
  {
    if fuel > 0 {
      var body := [Assignment(x, Literal(LBool(false)))];
      var inner := Push(st, map[]);
      var after := SetVar(inner, x, VBool(false));
      assert Exec(body[0], inner, fuel - 1) == (Normal, after);
      BlockOfOne(body[0], inner, fuel - 1);
      assert Pop(after) == st;
      WhileBodyCannotFalsifyCondition(x, st, fuel - 1);
    }
  }

  /** A Break raised while evaluating the condition (by a function it calls) is not caught by
      the loop: only the body runs under the loop's handler. */
  lemma BreakInConditionEscapesWhile(condition: Expr, block: seq<Stmt>, st: State, fuel: nat)
    requires |st.frames| > 0 && Eval(condition, st, fuel).0 == Abort(Brk)
    ensures WhileLoop(condition, block, st, fuel) == (Brk, Eval(condition, st, fuel).1)
  {
  }

  // ---------------------------------------------------------------------------
  // Calls

  /** `zip(params, args)` binds positionally: a key is bound exactly when it was bound before or
      is one of the first min(|params|, |args|) parameters; with distinct parameters, the i-th
      parameter holds the i-th argument and extra arguments are dropped. */
  lemma {:induction false} ZipBindPositional(frame: map<string, Value>, params: seq<string>, args: seq<Value>)
    ensures var m := if |params| < |args| then |params| else |args|;
      forall k :: k in ZipBind(frame, params, args) <==> k in frame || k in params[..m]
    ensures var m := if |params| < |args| then |params| else |args|;
      forall k :: k in frame && k !in params[..m] ==> ZipBind(frame, params, args)[k] == frame[k]
    ensures (forall i, j :: 0 <= i < j < |params| ==> params[i] != params[j]) ==>
      forall i :: 0 <= i < |params| && i < |args| ==> ZipBind(frame, params, args)[params[i]] == args[i]
    decreases params
  {
    if params != [] && args != [] {
      var f1 := frame[params[0] := args[0]];
      ZipBindPositional(f1, params[1..], args[1..]);
      var m := if |params| < |args| then |params| else |args|;
      assert params[..m] == [params[0]] + params[1..][..m - 1];
      if forall i, j :: 0 <= i < j < |params| ==> params[i] != params[j] {
        assert forall i, j :: 0 <= i < j < |params[1..]| ==> params[1..][i] != params[1..][j] by {
          forall i, j | 0 <= i < j < |params[1..]|
            ensures params[1..][i] != params[1..][j]
          {
            assert params[1..][i] == params[i + 1] && params[1..][j] == params[j + 1];
          }
        }
        var z := ZipBind(frame, params, args);
        assert z == ZipBind(f1, params[1..], args[1..]);
        var tail := params[1..][..m - 1];
        assert forall j :: 0 <= j < |tail| ==> tail[j] == params[j + 1];
        forall i | 0 <= i < |params| && i < |args|
          ensures params[i] in z && z[params[i]] == args[i]
        {
          if i == 0 {
            assert params[0] !in tail;
          } else {
            assert tail[i - 1] == params[i];
            assert params[i] == params[1..][i - 1] && args[i] == args[1..][i - 1];
          }
        }
      }
    }
  }

  /** A called function runs in a child of the caller's frame (dynamic scope): a body that
      returns a variable it does not bind returns the caller's binding of it. */
  lemma FunctionSeesCallerScope(x: string, st: State, fuel: nat)
    requires |st.frames| > 0 && Lookup(st.frames, x).Some?
    ensures CallFunction([], [Return(Some(Variable(x)))], [], st, fuel) == (Done(Lookup(st.frames, x).value), st)
  {
    var inner := Push(st, map[]);
    var v := Lookup(st.frames, x).value;
    assert ZipBind(map[], [], []) == map[];
    LookupPushed(st, map[], x);
    assert Eval(Variable(x), inner, fuel) == (Done(v), inner);
    assert Exec(Return(Some(Variable(x))), inner, fuel) == (Ret(v), inner);
    BlockOfOne(Return(Some(Variable(x))), inner, fuel);
    assert Pop(inner) == st;
  }

  /** A function whose body is `break` stops the caller's `for` loop at its first iteration:
      a call catches only Return, so the Break reaches the loop around the call. */
  lemma BreakEscapesCall(v: string, f: string, i: int, n: int, rest: seq<Stmt>, st: State, fuel: nat)
    requires |st.frames| > 0 && v != f && i < n && fuel > 0
    requires Lookup(st.frames, f) == Some(VFunc([], [Break]))
    ensures ForLoop(v, i, n, [ExprStmt(Call(f, []))] + rest, st, fuel) == (Normal, st)
  {
    var inner := Push(st, map[v := VInt(i)]);
    LookupPushed(st, map[v := VInt(i)], f);
    assert EvalList([], [], inner, fuel) == (Done([]), inner);
    var called := Push(inner, ZipBind(map[], [], []));
    BlockOfOne(Break, called, fuel - 1);
    assert Pop(called) == inner;
    assert CallFunction([], [Break], [], inner, fuel - 1) == (Abort(Brk), inner);
    assert EvalCall(f, [], inner, fuel) == (Abort(Brk), inner);
    assert Exec(ExprStmt(Call(f, [])), inner, fuel) == (Brk, inner);
    BlockHead(ExprStmt(Call(f, [])), rest, inner, fuel);
    assert Pop(inner) == st;
  }

  /** A Return inside a loop leaves the loop and ends the enclosing call, which yields its
      value: `for i in range(n): return i` returns 0 when n > 0. */
  lemma ReturnLeavesLoop(v: string, n: int, st: State, fuel: nat)
    requires |st.frames| > 0 && n > 0
    ensures CallFunction([], [For(v, Literal(LInt(n)), [Return(Some(Variable(v)))])], [], st, fuel)
         == (Done(VInt(0)), st)
  {
    var called := Push(st, ZipBind(map[], [], []));
    var inner := Push(called, map[v := VInt(0)]);
    var loop := [Return(Some(Variable(v)))];
    LookupPushed(called, map[v := VInt(0)], v);
    assert Eval(Variable(v), inner, fuel) == (Done(VInt(0)), inner);
    BlockOfOne(Return(Some(Variable(v))), inner, fuel);
    assert Pop(inner) == called;
    assert ForLoop(v, 0, n, loop, called, fuel) == (Ret(VInt(0)), called);
    assert Exec(For(v, Literal(LInt(n)), loop), called, fuel) == (Ret(VInt(0)), called);
    BlockOfOne(For(v, Literal(LInt(n)), loop), called, fuel);
    assert Pop(called) == st;
  }

  /** The callee is looked up before any argument is evaluated: calling an undefined name
      fails at once with the state untouched, even when an argument such as `printline(x)`
      would have printed. */
  lemma CalleeLookedUpFirst(f: string, args: seq<Expr>, st: State, fuel: nat)
    requires |st.frames| > 0 && Lookup(st.frames, f).None?
    ensures Eval(Call(f, args), st, fuel) == (Abort(Fail(Undefined(f))), st)
  {
  }

  // ---------------------------------------------------------------------------
  // Printing and the other builtins

  /** What a callable that is not a `FuncDef` does (interpreter.py:90-93, 149-158):
      `printline` and `printlinef` both append their argument list to the output log as one
      line and give None; every other builtin leaves the state as it was; `range` gives its
      single argument and fails on any other count; a value that is not callable fails. */
  lemma BuiltinEffects(callee: string, f: Value, args: seq<Value>, st: State)
    ensures var (res, st') := CallBuiltin(callee, f, args, st);
            && (f == VBuiltin(PrintLine) || f == VBuiltin(PrintLineF)
                ==> res == Done(VNone) && st' == State(st.frames, st.output + [args]))
            && (f != VBuiltin(PrintLine) && f != VBuiltin(PrintLineF) ==> st' == st)
            && (f == VBuiltin(Range)
                ==> res == if |args| == 1 then Done(args[0]) else Abort(Fail(RangeArguments(|args|))))
            && (!f.VBuiltin? ==> res == Abort(Fail(NotCallable(callee))))
  {
  }

  /** The `Printline` statement evaluates its arguments left to right and hands their values
      to the global `printline`, which writes them as one line of the log; an argument that
      raises stops the statement before anything is written. */
  lemma PrintlineAppends(args: seq<Expr>, st: State, fuel: nat)
    requires |st.frames| > 0
    requires "printline" in st.frames[0] && st.frames[0]["printline"] == VBuiltin(PrintLine)
    ensures var (vals, st1) := EvalList(args, [], st, fuel);
            Exec(Printline(args), st, fuel)
            == if vals.Done? then (Normal, State(st1.frames, st1.output + [vals.value])) else (vals.signal, st1)
  {
    var (vals, st1) := EvalList(args, [], st, fuel);
    if vals.Done? {
      BuiltinEffects("printline", VBuiltin(PrintLine), vals.value, st1);
    }
  }

  /** A call of `printline` or `printlinef` as an expression evaluates its arguments left to
      right, writes their values as one line of the log, and gives None. */
  lemma PrintCallAppends(callee: string, b: Builtin, args: seq<Expr>, st: State, fuel: nat)
    requires |st.frames| > 0 && (b == PrintLine || b == PrintLineF)
    requires Lookup(st.frames, callee) == Some(VBuiltin(b))
    ensures var (vals, st1) := EvalList(args, [], st, fuel);
            Eval(Call(callee, args), st, fuel)
            == if vals.Done? then (Done(VNone), State(st1.frames, st1.output + [vals.value]))
               else (Abort(vals.signal), st1)
  {
    var (vals, st1) := EvalList(args, [], st, fuel);
    if vals.Done? {
      BuiltinEffects(callee, VBuiltin(b), vals.value, st1);
    }
  }

  /** The expressions of a list of literals, and the values they stand for. */
  function LiteralArgs(lits: seq<Lit>): (es: seq<Expr>)
    ensures |es| == |lits|
  {
    if lits == [] then [] else [Literal(lits[0])] + LiteralArgs(lits[1..])
  }

  function LiteralValues(lits: seq<Lit>): (vs: seq<Value>)
    ensures |vs| == |lits| && forall i :: 0 <= i < |lits| ==> vs[i] == LitValue(lits[i])
  {
    if lits == [] then [] else [LitValue(lits[0])] + LiteralValues(lits[1..])
  }

  /** Literal arguments evaluate to their values, in order, without touching the state. */
  lemma {:induction false} LiteralsEvaluate(lits: seq<Lit>, acc: seq<Value>, st: State, fuel: nat)
    requires |st.frames| > 0
    ensures EvalList(LiteralArgs(lits), acc, st, fuel) == (Done(acc + LiteralValues(lits)), st)
    decreases |lits|
  {
    if lits != [] {
      var es := LiteralArgs(lits);
      assert es[0] == Literal(lits[0]) && es[1..] == LiteralArgs(lits[1..]);
      assert Eval(es[0], st, fuel) == (Done(LitValue(lits[0])), st);
      assert EvalList(es, acc, st, fuel) == EvalList(es[1..], acc + [LitValue(lits[0])], st, fuel);
      LiteralsEvaluate(lits[1..], acc + [LitValue(lits[0])], st, fuel);
      AppendAssociates(acc, [LitValue(lits[0])], LiteralValues(lits[1..]));
    } else {
      assert acc + LiteralValues(lits) == acc;
    }
  }

  /** So `printline(l1, ..., ln)` on literals writes exactly their values as one new line
      and changes nothing else. */
  lemma PrintsLiterals(lits: seq<Lit>, st: State, fuel: nat)
    requires |st.frames| > 0
    requires "printline" in st.frames[0] && st.frames[0]["printline"] == VBuiltin(PrintLine)
    ensures Exec(Printline(LiteralArgs(lits)), st, fuel) == (Normal, State(st.frames, st.output + [LiteralValues(lits)]))
  {
    LiteralsEvaluate(lits, [], st, fuel);
    assert [] + LiteralValues(lits) == LiteralValues(lits);
    PrintlineAppends(LiteralArgs(lits), st, fuel);
  }

  /** Calling a name bound to a value that is neither a `FuncDef` nor a builtin fails as not
      callable, after its arguments have been evaluated (interpreter.py:79-93): the state is
      the one the arguments left, and nothing more is written. */
  lemma NotCallableFails(callee: string, args: seq<Expr>, st: State, fuel: nat)
    requires |st.frames| > 0
    requires Lookup(st.frames, callee).Some?
    requires !Lookup(st.frames, callee).value.VFunc? && !Lookup(st.frames, callee).value.VBuiltin?
    ensures var (vals, st1) := EvalList(args, [], st, fuel);
            Eval(Call(callee, args), st, fuel)
            == if vals.Done? then (Abort(Fail(NotCallable(callee))), st1) else (Abort(vals.signal), st1)
  {
    var (vals, st1) := EvalList(args, [], st, fuel);
    if vals.Done? {
      BuiltinEffects(callee, Lookup(st.frames, callee).value, vals.value, st1);
    }
  }

  // ---------------------------------------------------------------------------
  // Operators

  /** A bool is as true as the integer it stands for: a number is true exactly when it is
      not zero. */
  lemma TruthyNumbers(v: Value)
    requires IsNumber(v)
    ensures Truthy(v) <==> Numeric(v) != 0
  {
  }

  /** What an operator can give: it fails only with a type error, a division by zero or an
      unknown operator, and by zero exactly for `/` and `%` on numbers with a zero divisor;
      `and` and `or` never fail and return an operand; comparisons give bools; `+`, `-` and `*`
      on numbers give ints. */
  lemma ApplyOutcomes(op: Kind, l: Value, r: Value)
    ensures var res := Apply(op, l, r);
            && (res.Err? ==> res.error in {BadOperands(op), DivisionByZero, UnknownOperator(op)})
            && (res == Err(DivisionByZero)
                <==> (op == Op(DIV) || op == Op(MOD)) && IsNumber(l) && IsNumber(r) && Numeric(r) == 0)
            && (op == Kw(AND) || op == Kw(OR) ==> res.Ok? && (res.value == l || res.value == r))
            && ((op == Op(EQ) || op == Op(GT) || op == Op(LT)) && res.Ok? ==> res.value.VBool?)
            && ((op == Op(PLUS) || op == Op(MINUS) || op == Op(MUL)) && IsNumber(l) && IsNumber(r)
                ==> res.Ok? && res.value.VInt?)
  {
  }

  /** `and` and `or` return one of their operands, and its truthiness is the conjunction, or
      the disjunction, of the operands' truthiness. */
  lemma LogicOperatorsTruth(l: Value, r: Value)
    ensures Apply(Kw(AND), l, r) == Ok(if Truthy(l) then r else l)
    ensures Apply(Kw(OR), l, r) == Ok(if Truthy(l) then l else r)
    ensures Truthy(Apply(Kw(AND), l, r).value) <==> Truthy(l) && Truthy(r)
    ensures Truthy(Apply(Kw(OR), l, r).value) <==> Truthy(l) || Truthy(r)
  {
  }

  /** Both operands are always evaluated, so `and` does not short-circuit: in
      `False and f()` the call still runs (here it prints an empty line) although the result is
      the left operand. */
  lemma AndEvaluatesBothOperands(f: string, st: State, fuel: nat)
    requires |st.frames| > 0 && fuel > 0
    requires "printline" in st.frames[0] && st.frames[0]["printline"] == VBuiltin(PrintLine)
    requires Lookup(st.frames, f) == Some(VFunc([], [Printline([])]))
    ensures Eval(BinOp(Literal(LBool(false)), Kw(AND), Call(f, [])), st, fuel)
         == (Done(VBool(false)), State(st.frames, st.output + [[]]))
  {
    CallPrintsEmptyLine(f, st, fuel);
    assert Eval(Literal(LBool(false)), st, fuel) == (Done(VBool(false)), st);
  }

  /** Calling a function whose body is `printline()` prints one empty line and returns None. */
  lemma CallPrintsEmptyLine(f: string, st: State, fuel: nat)
    requires |st.frames| > 0 && fuel > 0
    requires "printline" in st.frames[0] && st.frames[0]["printline"] == VBuiltin(PrintLine)
    requires Lookup(st.frames, f) == Some(VFunc([], [Printline([])]))
    ensures EvalCall(f, [], st, fuel) == (Done(VNone), State(st.frames, st.output + [[]]))
  {
    var called := Push(st, ZipBind(map[], [], []));
    assert called.frames[0] == st.frames[0];
    assert EvalList([], [], called, fuel - 1) == (Done([]), called);
    var printed := State(called.frames, called.output + [[]]);
    assert Exec(Printline([]), called, fuel - 1) == (Normal, printed);
    BlockOfOne(Printline([]), called, fuel - 1);
    assert Pop(printed) == State(st.frames, st.output + [[]]);
    assert CallFunction([], [Printline([])], [], st, fuel - 1) == (Done(VNone), Pop(printed));
    assert EvalList([], [], st, fuel) == (Done([]), st);
  }

  /** An operator token that is not one of the ten operators of `eval_expr` is rejected. */
  lemma UnknownOperatorRejected(op: Kind, l: Value, r: Value)
    requires op !in {Op(PLUS), Op(MINUS), Op(MUL), Op(DIV), Op(EQ), Op(GT), Op(LT), Kw(AND), Kw(OR), Op(MOD)}
    ensures Apply(op, l, r) == Err(UnknownOperator(op))
  {
  }

  /** Python's `<` on strings is a strict total order: exactly one of a < b, a == b, b < a. */
  lemma {:induction false} StrLessTotal(a: string, b: string)
    ensures StrLess(a, b) || a == b || StrLess(b, a)
    ensures !(StrLess(a, b) && StrLess(b, a))
    ensures !StrLess(a, a)
  {
    if a != [] && b != [] && a[0] == b[0] {
      StrLessTotal(a[1..], b[1..]);
      if a[1..] == b[1..] {
        assert a == [a[0]] + a[1..] && b == [b[0]] + b[1..];
      }
    }
    if a != [] {
      StrLessTotal(a[1..], a[1..]);
    }
  }

  /** ... and transitive. */
  lemma {:induction false} StrLessTransitive(a: string, b: string, c: string)
    requires StrLess(a, b) && StrLess(b, c)
    ensures StrLess(a, c)
    decreases |a|
  {
    if a != [] && a[0] == b[0] && b[0] == c[0] {
      StrLessTransitive(a[1..], b[1..], c[1..]);
    }
  }

  /** A proper prefix comes before the longer string. */
  lemma {:induction false} PrefixComesFirst(a: string, b: string)
    requires |a| < |b| && a == b[..|a|]
    ensures StrLess(a, b)
    decreases |a|
  {
    if a != [] {
      assert a[0] == b[0];
      assert a[1..] == b[1..][..|a| - 1];
      PrefixComesFirst(a[1..], b[1..]);
    }
  }

  /** `==` is symmetric and `>` is `<` with the operands swapped. */
  lemma ComparisonsAgree(l: Value, r: Value)
    ensures Apply(Op(EQ), l, r) == Apply(Op(EQ), r, l)
    ensures Apply(Op(GT), l, r).Ok? <==> Apply(Op(LT), r, l).Ok?
    ensures Apply(Op(GT), l, r).Ok? ==> Apply(Op(GT), l, r) == Apply(Op(LT), r, l)
  {
  }

  /** A bool is the integer 0 or 1 to every operator but `and` and `or` (which return an
      operand): `True + 1`, `True == 1`, `"ab" * True` behave as with 1, on either side. */
  lemma BoolIsInt(op: Kind, b: bool, v: Value)
    requires op != Kw(AND) && op != Kw(OR)
    ensures Apply(op, VBool(b), v) == Apply(op, VInt(if b then 1 else 0), v)
    ensures Apply(op, v, VBool(b)) == Apply(op, v, VInt(if b then 1 else 0))
  {
    BoolOnLeft(op, b, v);
    BoolOnRight(op, b, v);
  }

  /** The left operand of `BoolIsInt`, one operator group at a time. */
  lemma BoolOnLeft(op: Kind, b: bool, v: Value)
    requires op != Kw(AND) && op != Kw(OR)
    ensures Apply(op, VBool(b), v) == Apply(op, VInt(if b then 1 else 0), v)
  {
    var n := VInt(if b then 1 else 0);
    match op {
      case Op(k) =>
        if k == EQ {
          assert Apply(op, VBool(b), v) == Apply(op, n, v);
        } else if k == MUL {
          assert Apply(op, VBool(b), v) == Apply(op, n, v);
        } else if k == PLUS || k == MINUS {
          assert Apply(op, VBool(b), v) == Apply(op, n, v);
        } else if k == DIV || k == MOD {
          assert Apply(op, VBool(b), v) == Apply(op, n, v);
        } else if k == GT || k == LT {
          assert Apply(op, VBool(b), v) == Apply(op, n, v);
        }
      case _ =>
    }
  }

  /** The right operand of `BoolIsInt`. */
  lemma BoolOnRight(op: Kind, b: bool, v: Value)
    requires op != Kw(AND) && op != Kw(OR)
    ensures Apply(op, v, VBool(b)) == Apply(op, v, VInt(if b then 1 else 0))
  {
    var n := VInt(if b then 1 else 0);
    match op {
      case Op(k) =>
        if k == EQ {
          assert Apply(op, v, VBool(b)) == Apply(op, v, n);
        } else if k == MUL {
          assert Apply(op, v, VBool(b)) == Apply(op, v, n);
        } else if k == PLUS || k == MINUS {
          assert Apply(op, v, VBool(b)) == Apply(op, v, n);
        } else if k == DIV || k == MOD {
          assert Apply(op, v, VBool(b)) == Apply(op, v, n);
        } else if k == GT || k == LT {
          assert Apply(op, v, VBool(b)) == Apply(op, v, n);
        }
      case _ =>
    }
  }

  /** `/` and `%` on numbers fail exactly when the divisor is zero; otherwise `%` is Python's
      remainder, which has the sign of the divisor and completes the rounded-down quotient. */
  lemma DivisionRules(l: Value, r: Value)
    requires IsNumber(l) && IsNumber(r)
    ensures Apply(Op(DIV), l, r) == Err(DivisionByZero) <==> Numeric(r) == 0
    ensures Apply(Op(MOD), l, r) == Err(DivisionByZero) <==> Numeric(r) == 0
    ensures Numeric(r) != 0 ==> Apply(Op(DIV), l, r).Ok? && Apply(Op(MOD), l, r).Ok?
    ensures Numeric(r) > 0 ==> 0 <= Apply(Op(MOD), l, r).value.i < Numeric(r)
    ensures Numeric(r) < 0 ==> Numeric(r) < Apply(Op(MOD), l, r).value.i <= 0
    ensures Numeric(r) != 0 ==>
      Numeric(l) == Numeric(r) * FloorDiv(Numeric(l), Numeric(r)) + Apply(Op(MOD), l, r).value.i
  {
  }

  /** `s * n` and `n * s` are the same string: `n` copies of `s`, the empty string when `n` is
      not positive. */
  lemma StringRepetition(s: string, n: Value)
    requires IsNumber(n)
    ensures Apply(Op(MUL), VStr(s), n) == Apply(Op(MUL), n, VStr(s))
    ensures Apply(Op(MUL), VStr(s), n).Ok? && Apply(Op(MUL), VStr(s), n).value.VStr?
    ensures |Apply(Op(MUL), VStr(s), n).value.s| == if Numeric(n) > 0 then Numeric(n) * |s| else 0
    ensures Numeric(n) > 0 ==> Apply(Op(MUL), VStr(s), n).value.s[..|s|] == s
  {
    if Numeric(n) > 0 {
      RepeatAdds(s, 1, Numeric(n) - 1);
      assert Repeat(s, 1) == s + Repeat(s, 0);
    }
  }

  /** Copies add up: `s * (a + b) == s * a + s * b` for non-negative counts. */
  lemma {:induction false} RepeatAdds(s: string, a: nat, b: nat)
    ensures Repeat(s, a + b) == Repeat(s, a) + Repeat(s, b)
    decreases a
  {
    if a > 0 {
      RepeatAdds(s, a - 1, b);
      assert Repeat(s, a + b) == s + Repeat(s, a - 1 + b);
    } else {
      assert Repeat(s, 0) == [];
    }
  }

  // ---------------------------------------------------------------------------
  // Tables

  /** Evaluating a table keeps its keys in order: a key already in `acc` stays where it is,
      the others follow in the order of the literal. */
  lemma {:induction false} TableKeepsKeyOrder(pairs: seq<Entry<Expr>>, acc: seq<Entry<Value>>, st: State, fuel: nat)
    requires |st.frames| > 0 && UniqueKeys(pairs)
    requires forall k :: k in Keys(pairs) ==> k !in Keys(acc)
    requires EvalPairs(pairs, acc, st, fuel).0.Done?
    ensures Keys(EvalPairs(pairs, acc, st, fuel).0.value) == Keys(acc) + Keys(pairs)
    decreases pairs
  {
    if pairs != [] {
      var (v, st1) := Eval(pairs[0].value, st, fuel);
      assert v.Done?;
      var k0 := pairs[0].key;
      assert Keys(pairs) == [k0] + Keys(pairs[1..]);
      UniqueTail(pairs);
      assert k0 !in Keys(acc);
      PutKeys(acc, k0, v.value);
      FreshAfterFirst(k0, Keys(pairs[1..]), Keys(acc));
      TableKeepsKeyOrder(pairs[1..], Put(acc, k0, v.value), st1, fuel);
    }
  }

  /** Once the first key is appended, the remaining keys are still fresh. */
  lemma FreshAfterFirst(k0: string, tail: seq<string>, ks: seq<string>)
    requires k0 !in tail && forall k :: k in [k0] + tail ==> k !in ks
    ensures forall k :: k in tail ==> k !in ks + [k0]
    ensures ks + [k0] + tail == ks + ([k0] + tail)
  {
    assert forall k :: k in tail ==> k in [k0] + tail;
  }

  /** The keys after the first of a table literal are distinct and differ from the first. */
  lemma UniqueTail<V>(pairs: seq<Entry<V>>)
    requires pairs != [] && UniqueKeys(pairs)
    ensures UniqueKeys(pairs[1..]) && pairs[0].key !in Keys(pairs[1..])
  {
    forall i, j | 0 <= i < j < |pairs[1..]| ensures pairs[1..][i].key != pairs[1..][j].key {
      assert pairs[1..][i] == pairs[i + 1] && pairs[1..][j] == pairs[j + 1];
    }
    forall j | 0 <= j < |pairs[1..]| ensures Keys(pairs[1..])[j] != pairs[0].key {
      assert pairs[1..][j] == pairs[j + 1];
    }
  }

  // ---------------------------------------------------------------------------
  // Top level

  /** A Break, Continue or Return that reaches the top level is not caught: `execute` stops
      there and reports it. */
  lemma UncaughtSignalStopsProgram(s: Stmt, rest: seq<Stmt>, st: State, fuel: nat)
    requires |st.frames| == 1 && (s == Break || s == Continue || s == Return(None))
    ensures Run(Program([s] + rest), st, fuel) == (if s == Break then Brk else if s == Continue then Cont else Ret(VNone), st)
  {
    BlockHead(s, rest, st, fuel);
  }
}
