/** The tree-walking evaluator of FFling (interpreter.py): runtime values, the scope chain, the
    operators, a functional specification of `eval_expr`, `eval_stmt` and `exec_block`, and the
    `Interpreter` class whose methods and loops are proved to compute it.

    The chain of `Environment` objects is always a stack (a loop iteration or a call parents its
    new environment to the current one), so it is a sequence of frames with the innermost last;
    frame 0 is the global environment. Python's Break, Continue and Return exceptions become
    outcomes. `while` loops and calls may diverge, so evaluation takes fuel: one unit per `while`
    iteration and per call of a user function. */
module Interpreting {
  import opened Results
  import opened Tokens
  import opened Dicts
  import opened Ast

  // ---------------------------------------------------------------------------
  // Runtime values

  /** The host callables the interpreter installs (interpreter.py:21-25, 96-99). */
  datatype Builtin = PrintLine | PrintLineF | Range | InputLine | TimeTime | TimeSleep

  /** Python values a program can produce. `VFunc` is a `FuncDef` (interpreter.py:170-173);
      `VQuotient(n, d)` is the float `n / d`, kept as the exact quotient: only its truthiness
      (`n != 0`) is interpreted, and float rounding, underflow and overflow are not modelled. */
  datatype Value =
    | VNone
    | VInt(i: int)
    | VStr(s: string)
    | VBool(b: bool)
    | VTable(entries: seq<Entry<Value>>)
    | VFunc(params: seq<string>, body: seq<Stmt>)
    | VBuiltin(builtin: Builtin)
    | VQuotient(num: int, den: int)

  datatype RunError =
    | Undefined(name: string)          // NameError of `Environment.get`
    | NotCallable(name: string)        // ValueError "... is not callable"
    | BadOperands(op: Kind)            // Python TypeError of an operator, or an unmodelled mix
    | DivisionByZero                   // ZeroDivisionError of `/` and `%`
    | UnknownOperator(op: Kind)        // ValueError "Unknown operator ..."
    | RangeArguments(count: nat)       // ValueError "range expects one argument"
    | BadRangeBound                    // TypeError of Python's `range` on a non-integer
    | Unmodelled(builtin: Builtin)     // console input and the clock
    | OutOfFuel                        // the model's bound on loop iterations and calls

  /** How a statement ends: normally, or by one of the control exceptions, or by an error. */
  datatype Outcome = Normal | Brk | Cont | Ret(value: Value) | Fail(error: RunError)

  /** How the evaluation of an expression ends: with a value, or by an outcome that escapes it. */
  datatype Flow<+T> = Done(value: T) | Abort(signal: Outcome)

  /** The outcomes that can escape an expression: a call catches Return but not Break,
      Continue or an error (interpreter.py:86-89). */
  predicate Escapes(o: Outcome) {
    o.Brk? || o.Cont? || o.Fail?
  }

  /** The interpreter's state: the scope chain and the lines printed so far, each line the list
      of values passed to `printline`. */
  datatype State = State(frames: seq<map<string, Value>>, output: seq<seq<Value>>)

  /** Python truthiness of a value (`if`, `while`, `and`, `or`). */
  predicate Truthy(v: Value)
  {
    match v
    case VNone => false
    case VInt(i) => i != 0
    case VStr(s) => s != ""
    case VBool(b) => b
    case VTable(entries) => entries != []
    case VFunc(_, _) => true
    case VBuiltin(_) => true
    case VQuotient(n, _) => n != 0
  }

  function LitValue(lit: Lit): (v: Value)
    ensures Scalar(v) && v != VNone
  {
    match lit
    case LInt(i) => VInt(i)
    case LStr(s) => VStr(s)
    case LBool(b) => VBool(b)
  }

  // ---------------------------------------------------------------------------
  // The scope chain

  /** `Environment.get` (interpreter.py:8-13): the innermost frame holding `name` answers;
      None stands for the NameError raised when no frame does. */
  function Lookup(frames: seq<map<string, Value>>, name: string): (r: Option<Value>)
    ensures r.Some? <==> exists i :: 0 <= i < |frames| && name in frames[i]
  {
    if frames == [] then None
    else if name in frames[|frames| - 1] then Some(frames[|frames| - 1][name])
    else
      var r := Lookup(frames[..|frames| - 1], name);
      assert forall i :: 0 <= i < |frames| - 1 ==> frames[..|frames| - 1][i] == frames[i];
      r
  }

  /** `Environment.set` (interpreter.py:15-16) on the innermost frame. */
  function Bind(frames: seq<map<string, Value>>, name: string, v: Value): seq<map<string, Value>>
    requires |frames| > 0
  {
    frames[..|frames| - 1] + [frames[|frames| - 1][name := v]]
  }

  /** Only the innermost frame differs: the frames enclosing it are the same. */
  predicate SameEnclosing(a: seq<map<string, Value>>, b: seq<map<string, Value>>) {
    |a| == |b| && |a| > 0 && a[..|a| - 1] == b[..|b| - 1]
  }

  function SetVar(st: State, name: string, v: Value): State
    requires |st.frames| > 0
  {
    State(Bind(st.frames, name, v), st.output)
  }

  /** `Environment(env)`: a new innermost frame. */
  function Push(st: State, frame: map<string, Value>): State {
    State(st.frames + [frame], st.output)
  }

  /** Leaving the construct that created the innermost frame. */
  function Pop(st: State): State
    requires |st.frames| > 0
  {
    State(st.frames[..|st.frames| - 1], st.output)
  }

  /** `zip(params, args)` bound one pair at a time into `frame` (interpreter.py:84-85). */
  function ZipBind(frame: map<string, Value>, params: seq<string>, args: seq<Value>): map<string, Value>
    decreases params
  {
    if params == [] || args == [] then frame
    else ZipBind(frame[params[0] := args[0]], params[1..], args[1..])
  }

  // ---------------------------------------------------------------------------
  // Operators (interpreter.py:110-134)

  /** Python's `//` on integers: the quotient rounded down. */
  function FloorDiv(a: int, b: int): int
    requires b != 0
  {
    if b > 0 || a % b == 0 then a / b else a / b - 1
  }

  /** Python's `%` on integers: the remainder takes the sign of the divisor and completes the
      rounded-down quotient. */
  function PyMod(a: int, b: int): (r: int)
    requires b != 0
    ensures b > 0 ==> 0 <= r < b
    ensures b < 0 ==> b < r <= 0
    ensures a == b * FloorDiv(a, b) + r
  {
    var q := a / b;
    assert a == b * q + a % b;
    if b > 0 || a % b == 0 then a % b
    else
      assert b * (q - 1) == b * q - b;
      a % b + b
  }

  /** Python's `<` on strings: lexicographic by code point, a proper prefix first. */
  predicate StrLess(a: string, b: string) {
    if a == [] then b != []
    else if b == [] then false
    else if a[0] != b[0] then a[0] < b[0]
    else StrLess(a[1..], b[1..])
  }

  predicate Scalar(v: Value) {
    v.VNone? || v.VInt? || v.VStr? || v.VBool?
  }

  /** The values Python's integer arithmetic accepts: ints and bools. */
  predicate IsNumber(v: Value) {
    v.VInt? || v.VBool?
  }

  /** A Python bool is the integer 0 or 1. */
  function Numeric(v: Value): int
    requires IsNumber(v)
  {
    if v.VInt? then v.i else if v.b then 1 else 0
  }

  /** Python's `s * n` on a string: `n` copies of `s`, none when `n` is not positive. */
  function Repeat(s: string, n: int): (r: string)
    ensures |r| == if n > 0 then n * |s| else 0
    ensures |s| > 0 ==> forall k :: 0 <= k < |r| ==> r[k] == s[k % |s|]
    decreases n
  {
    if n <= 0 then [] else
      var rest := Repeat(s, n - 1);
      RepeatStep(s, rest);
      s + rest
  }

  /** One more copy of `s` in front keeps every character at its place modulo `|s|`. */
  lemma RepeatStep(s: string, rest: string)
    requires |s| > 0 ==> forall k :: 0 <= k < |rest| ==> rest[k] == s[k % |s|]
    ensures |s| > 0 ==> forall k :: 0 <= k < |s + rest| ==> (s + rest)[k] == s[k % |s|]
  {
    if |s| > 0 {
      var m := |s|;
      forall k | 0 <= k < m + |rest|
        ensures (s + rest)[k] == s[k % m]
      {
        if k < m {
          ModUnique(k, m, 0, k);
        } else {
          var j := k - m;
          assert (s + rest)[k] == rest[j] == s[j % m];
          ModShift(j, m);
        }
      }
    }
  }

  /** Adding the divisor once does not change the remainder. */
  lemma ModShift(j: nat, m: nat)
    requires m > 0
    ensures (j + m) % m == j % m
  {
    var q, r := j / m, j % m;
    assert j + m == m * (q + 1) + r;
    ModUnique(j + m, m, q + 1, r);
  }

  /** The remainder is the only one in range that completes a quotient. */
  lemma ModUnique(a: int, m: int, q: int, r: int)
    requires m > 0 && 0 <= r < m && a == m * q + r
    ensures a % m == r
  {
    var d := q - a / m;
    assert m * q == m * (a / m) + m * d;
    if d >= 1 {
      AtLeastOnce(m, d);
    } else if d <= -1 {
      AtLeastOnce(m, -d);
    }
  }

  /** `d` copies of `m` add up to at least one `m`. */
  lemma {:induction false} AtLeastOnce(m: nat, d: int)
    requires d >= 1
    ensures m * d >= m
    decreases d
  {
    if d > 1 {
      AtLeastOnce(m, d - 1);
      assert m * d == m * (d - 1) + m;
    }
  }

  /** Python's `==` on scalars: an int and a bool compare as numbers, other kinds never match. */
  predicate ScalarEq(a: Value, b: Value)
    requires Scalar(a) && Scalar(b)
  {
    if IsNumber(a) && IsNumber(b) then Numeric(a) == Numeric(b) else a == b
  }

  /** The operator of a `BinOp` applied to both (already evaluated) operands. Ints and bools
      mix as numbers, as in Python; the result of arithmetic is an int. */
  function Apply(op: Kind, l: Value, r: Value): Result<Value, RunError> {
    match op
    case Op(PLUS) =>
      if IsNumber(l) && IsNumber(r) then Ok(VInt(Numeric(l) + Numeric(r)))
      else if l.VStr? && r.VStr? then Ok(VStr(l.s + r.s))
      else Err(BadOperands(op))
    case Op(MINUS) =>
      if IsNumber(l) && IsNumber(r) then Ok(VInt(Numeric(l) - Numeric(r))) else Err(BadOperands(op))
    case Op(MUL) =>
      if IsNumber(l) && IsNumber(r) then Ok(VInt(Numeric(l) * Numeric(r)))
      else if l.VStr? && IsNumber(r) then Ok(VStr(Repeat(l.s, Numeric(r))))
      else if IsNumber(l) && r.VStr? then Ok(VStr(Repeat(r.s, Numeric(l))))
      else Err(BadOperands(op))
    case Op(DIV) =>
      if !(IsNumber(l) && IsNumber(r)) then Err(BadOperands(op))
      else if Numeric(r) == 0 then Err(DivisionByZero)
      else Ok(VQuotient(Numeric(l), Numeric(r)))
    case Op(EQ) =>
      if Scalar(l) && Scalar(r) then Ok(VBool(ScalarEq(l, r))) else Err(BadOperands(op))
    case Op(GT) =>
      if IsNumber(l) && IsNumber(r) then Ok(VBool(Numeric(l) > Numeric(r)))
      else if l.VStr? && r.VStr? then Ok(VBool(StrLess(r.s, l.s)))
      else Err(BadOperands(op))
    case Op(LT) =>
      if IsNumber(l) && IsNumber(r) then Ok(VBool(Numeric(l) < Numeric(r)))
      else if l.VStr? && r.VStr? then Ok(VBool(StrLess(l.s, r.s)))
      else Err(BadOperands(op))
    case Kw(AND) => Ok(if Truthy(l) then r else l)
    case Kw(OR) => Ok(if Truthy(l) then l else r)
    case Op(MOD) =>
      if !(IsNumber(l) && IsNumber(r)) then Err(BadOperands(op))
      else if Numeric(r) == 0 then Err(DivisionByZero)
      else Ok(VInt(PyMod(Numeric(l), Numeric(r))))
    case _ => Err(UnknownOperator(op))
  }

  // ---------------------------------------------------------------------------
  // Builtins

  /** The frame of the global environment a new `Interpreter` starts with (interpreter.py:19-25). */
  function Globals(): (g: map<string, Value>)
    ensures "printline" in g && "printlinef" in g && "range" in g && "inputline" in g
    ensures forall name :: name in g ==> g[name].VBuiltin? && g[name].builtin !in {TimeTime, TimeSleep}
  {
    map["printline" := VBuiltin(PrintLine), "printlinef" := VBuiltin(PrintLineF),
        "range" := VBuiltin(Range), "inputline" := VBuiltin(InputLine)]
  }

  /** `func(args)` for a value that is not a `FuncDef` (interpreter.py:90-93, 149-158). */
  function CallBuiltin(callee: string, f: Value, args: seq<Value>, st: State): (r: (Flow<Value>, State))
    ensures r.1.frames == st.frames
    ensures r.0.Abort? ==> r.0.signal.Fail?
  {
    match f
    case VBuiltin(PrintLine) => (Done(VNone), State(st.frames, st.output + [args]))
    case VBuiltin(PrintLineF) => (Done(VNone), State(st.frames, st.output + [args]))
    case VBuiltin(Range) =>
      if |args| == 1 then (Done(args[0]), st) else (Abort(Fail(RangeArguments(|args|))), st)
    case VBuiltin(b) => (Abort(Fail(Unmodelled(b))), st)
    case _ => (Abort(Fail(NotCallable(callee))), st)
  }

  // ---------------------------------------------------------------------------
  // Evaluation. Every function returns the outcome and the new state. An expression never
  // changes the scope chain (a call's frame is gone when it returns); a statement changes at
  // most the innermost frame; the output only grows.

  /** `eval_expr` (interpreter.py:105-143). */
  function Eval(e: Expr, st: State, fuel: nat): (r: (Flow<Value>, State))
    requires |st.frames| > 0
    ensures r.1.frames == st.frames && st.output <= r.1.output
    ensures r.0.Abort? ==> Escapes(r.0.signal)
    decreases fuel, e, 0, 0
  {
    match e
    case Literal(lit) => (Done(LitValue(lit)), st)
    case Variable(name) =>
      (match Lookup(st.frames, name)
       case Some(v) => Done(v)
       case None => Abort(Fail(Undefined(name))), st)
    case BinOp(left, op, right) =>
      var (l, st1) := Eval(left, st, fuel);
      if l.Abort? then (l, st1)
      else
        var (r, st2) := Eval(right, st1, fuel);
        if r.Abort? then (r, st2)
        else
          (match Apply(op, l.value, r.value)
           case Ok(v) => Done(v)
           case Err(err) => Abort(Fail(err)), st2)
    case Call(callee, args) => EvalCall(callee, args, st, fuel)
    case Table(pairs) =>
      var (t, st1) := EvalPairs(pairs, [], st, fuel);
      (match t
       case Done(entries) => Done(VTable(entries))
       case Abort(o) => Abort(o), st1)
  }

  /** `[self.eval_expr(arg, env) for arg in args]`, left to right, after the values in `acc`. */
  function EvalList(es: seq<Expr>, acc: seq<Value>, st: State, fuel: nat): (r: (Flow<seq<Value>>, State))
    requires |st.frames| > 0
    ensures r.1.frames == st.frames && st.output <= r.1.output
    ensures r.0.Abort? ==> Escapes(r.0.signal)
    decreases fuel, es, 0, 0
  {
    if es == [] then (Done(acc), st)
    else
      var (v, st1) := Eval(es[0], st, fuel);
      if v.Abort? then (Abort(v.signal), st1)
      else EvalList(es[1..], acc + [v.value], st1, fuel)
  }

  /** The loop of the `Table` case (interpreter.py:135-139): `table[k] = eval(v)` in key order. */
  function EvalPairs(pairs: seq<Entry<Expr>>, acc: seq<Entry<Value>>, st: State, fuel: nat)
    : (r: (Flow<seq<Entry<Value>>>, State))
    requires |st.frames| > 0
    ensures r.1.frames == st.frames && st.output <= r.1.output
    ensures r.0.Abort? ==> Escapes(r.0.signal)
    decreases fuel, pairs, 0, 0
  {
    if pairs == [] then (Done(acc), st)
    else
      var (v, st1) := Eval(pairs[0].value, st, fuel);
      if v.Abort? then (Abort(v.signal), st1)
      else EvalPairs(pairs[1..], Put(acc, pairs[0].key, v.value), st1, fuel)
  }

  /** The `Call` case (interpreter.py:78-93): the callee is looked up before the arguments are
      evaluated; a `FuncDef` runs in a child of the caller's frame, anything else is called as a
      host function. */
  function EvalCall(callee: string, args: seq<Expr>, st: State, fuel: nat): (r: (Flow<Value>, State))
    requires |st.frames| > 0
    ensures r.1.frames == st.frames && st.output <= r.1.output
    ensures r.0.Abort? ==> Escapes(r.0.signal)
    decreases fuel, args, 1, 0
  {
    match Lookup(st.frames, callee)
    case None => (Abort(Fail(Undefined(callee))), st)
    case Some(f) =>
      var (vals, st1) := EvalList(args, [], st, fuel);
      if vals.Abort? then (Abort(vals.signal), st1)
      else if f.VFunc? then
        if fuel == 0 then (Abort(Fail(OutOfFuel)), st1)
        else CallFunction(f.params, f.body, vals.value, st1, fuel - 1)
      else CallBuiltin(callee, f, vals.value, st1)
  }

  /** A call of a `FuncDef` (interpreter.py:82-89): the body runs in a new frame binding the
      parameters; a Return gives the call's value, a body that completes gives None. */
  function CallFunction(params: seq<string>, body: seq<Stmt>, args: seq<Value>, st: State, fuel: nat)
    : (r: (Flow<Value>, State))
    requires |st.frames| > 0
    ensures r.1.frames == st.frames && st.output <= r.1.output
    ensures r.0.Abort? ==> Escapes(r.0.signal)
    decreases fuel, body, 1, 0
  {
    var (o, st1) := ExecBlock(body, Push(st, ZipBind(map[], params, args)), fuel);
    var st2 := Pop(st1);
    match o
    case Ret(v) => (Done(v), st2)
    case Normal => (Done(VNone), st2)
    case _ => (Abort(o), st2)
  }

  /** `eval_stmt` (interpreter.py:31-103). */
  function Exec(s: Stmt, st: State, fuel: nat): (r: (Outcome, State))
    requires |st.frames| > 0
    ensures SameEnclosing(r.1.frames, st.frames) && st.output <= r.1.output
    decreases fuel, s, 2, 0
  {
    match s
    case Printline(args) =>
      var (vals, st1) := EvalList(args, [], st, fuel);
      if vals.Abort? then (vals.signal, st1)
      else if "printline" !in st1.frames[0] then (Fail(Undefined("printline")), st1)
      else
        var (res, st2) := CallBuiltin("printline", st1.frames[0]["printline"], vals.value, st1);
        (if res.Abort? then res.signal else Normal, st2)
    case Assignment(name, value) =>
      var (v, st1) := Eval(value, st, fuel);
      if v.Abort? then (v.signal, st1) else (Normal, SetVar(st1, name, v.value))
    case If(condition, thenBlock, elifs, elseBlock) =>
      var (c, st1) := Eval(condition, st, fuel);
      if c.Abort? then (c.signal, st1)
      else if Truthy(c.value) then ExecBlock(thenBlock, st1, fuel)
      else
        var (taken, st2) := ElifChain(elifs, st1, fuel);
        if taken.Some? then (taken.value, st2)
        else
          (match elseBlock
           case Else(b) => ExecBlock(b, st2, fuel)
           case NoElse => (Normal, st2))
    case For(variable, rangeExpr, block) =>
      var (n, st1) := Eval(rangeExpr, st, fuel);
      if n.Abort? then (n.signal, st1)
      else if !IsNumber(n.value) then (Fail(BadRangeBound), st1)
      else ForLoop(variable, 0, Numeric(n.value), block, st1, fuel)
    case While(condition, block) => WhileLoop(condition, block, st, fuel)
    case Break => (Brk, st)
    case Continue => (Cont, st)
    case Func(name, params, block) => (Normal, SetVar(st, name, VFunc(params, block)))
    case Return(result) =>
      if result.None? then (Ret(VNone), st)
      else
        var (v, st1) := Eval(result.value, st, fuel);
        if v.Abort? then (v.signal, st1) else (Ret(v.value), st1)
    case Import(path) =>
      if path == "time" then
        (Normal, SetVar(SetVar(st, "time_time", VBuiltin(TimeTime)), "time_sleep", VBuiltin(TimeSleep)))
      else (Normal, st)
    case ExprStmt(e) =>
      var (v, st1) := Eval(e, st, fuel);
      (if v.Abort? then v.signal else Normal, st1)
  }

  /** `exec_block` (interpreter.py:145-147): statements in order until one does not complete. */
  function ExecBlock(ss: seq<Stmt>, st: State, fuel: nat): (r: (Outcome, State))
    requires |st.frames| > 0
    ensures SameEnclosing(r.1.frames, st.frames) && st.output <= r.1.output
    decreases fuel, ss, 0, 0
  {
    if ss == [] then (Normal, st)
    else
      var (o, st1) := Exec(ss[0], st, fuel);
      if o != Normal then (o, st1) else ExecBlock(ss[1..], st1, fuel)
  }

  /** The `elif` loop of the `If` case (interpreter.py:43-46): None when every condition was
      falsy, otherwise how the first truthy clause's block, or a failing condition, ended. */
  function ElifChain(elifs: seq<Elif>, st: State, fuel: nat): (r: (Option<Outcome>, State))
    requires |st.frames| > 0
    ensures SameEnclosing(r.1.frames, st.frames) && st.output <= r.1.output
    ensures r.0.None? ==> r.1.frames == st.frames
    decreases fuel, elifs, 0, 0
  {
    if elifs == [] then (None, st)
    else
      var (c, st1) := Eval(elifs[0].condition, st, fuel);
      if c.Abort? then (Some(c.signal), st1)
      else if Truthy(c.value) then
        var (o, st2) := ExecBlock(elifs[0].block, st1, fuel);
        (Some(o), st2)
      else ElifChain(elifs[1..], st1, fuel)
  }

  /** The `For` loop from iteration `i` (interpreter.py:51-59): each iteration runs the block
      in a new frame binding only the loop variable; Break ends the loop, Continue goes on. */
  function ForLoop(variable: string, i: int, n: int, block: seq<Stmt>, st: State, fuel: nat)
    : (r: (Outcome, State))
    requires |st.frames| > 0
    ensures r.1.frames == st.frames && st.output <= r.1.output
    ensures !r.0.Brk? && !r.0.Cont?
    decreases fuel, block, 1, n - i
  {
    if i >= n then (Normal, st)
    else
      var (o, st1) := ExecBlock(block, Push(st, map[variable := VInt(i)]), fuel);
      var st2 := Pop(st1);
      match o
      case Brk => (Normal, st2)
      case Normal => ForLoop(variable, i + 1, n, block, st2, fuel)
      case Cont => ForLoop(variable, i + 1, n, block, st2, fuel)
      case _ => (o, st2)
  }

  /** The `While` loop (interpreter.py:60-68): the condition is evaluated in the enclosing
      environment before each iteration, the block in a new, empty frame. */
  function WhileLoop(condition: Expr, block: seq<Stmt>, st: State, fuel: nat): (r: (Outcome, State))
    requires |st.frames| > 0
    ensures r.1.frames == st.frames && st.output <= r.1.output
    decreases fuel, While(condition, block), 1, 0
  {
    var (c, st1) := Eval(condition, st, fuel);
    if c.Abort? then (c.signal, st1)
    else if !Truthy(c.value) then (Normal, st1)
    else if fuel == 0 then (Fail(OutOfFuel), st1)
    else
      var (o, st2) := ExecBlock(block, Push(st1, map[]), fuel - 1);
      var st3 := Pop(st2);
      match o
      case Brk => (Normal, st3)
      case Normal => WhileLoop(condition, block, st3, fuel - 1)
      case Cont => WhileLoop(condition, block, st3, fuel - 1)
      case _ => (o, st3)
  }

  /** `execute` (interpreter.py:27-29): the statements run in the global frame, in order, until
      one does not complete; Break, Continue and Return are not caught at the top level. */
  function Run(p: Program, st: State, fuel: nat): (r: (Outcome, State))
    requires |st.frames| == 1
    ensures |r.1.frames| == 1 && st.output <= r.1.output
  {
    ExecBlock(p.statements, st, fuel)
  }

  // ---------------------------------------------------------------------------
  // The interpreter object

  /** `Interpreter` (interpreter.py:18-158) with its scope chain and its output. Each method
      is proved to compute the function above that specifies it. */
  class Interpreter {
    var frames: seq<map<string, Value>>
    var output: seq<seq<Value>>

    ghost function Snapshot(): State
      reads this
    {
      State(frames, output)
    }

    /** There is always a current environment. */
    ghost predicate Valid()
      reads this
    {
      |frames| > 0
    }

    /** `Interpreter()` (interpreter.py:19-25): only the global environment, holding the
        builtins. */
    constructor()
      ensures frames == [Globals()] && output == []
    {
      frames := [Globals()];
      output := [];
    }

    /** `execute` (interpreter.py:27-29) in the global environment. */
    method Execute(p: Program, fuel: nat) returns (o: Outcome)
      requires |frames| == 1
      modifies this
      ensures (o, Snapshot()) == Run(p, old(Snapshot()), fuel)
    {
      o := ExecuteBlock(p.statements, fuel);
    }

    /** `env.set(name, value)` (interpreter.py:15-16) on the current environment. */
    method Set(name: string, v: Value)
      requires Valid()
      modifies this`frames
      ensures frames == Bind(old(frames), name, v)
    {
      var last := |frames| - 1;
      frames := frames[..last] + [frames[last][name := v]];
    }

    /** `exec_block` (interpreter.py:145-147). */
    method ExecuteBlock(ss: seq<Stmt>, fuel: nat) returns (o: Outcome)
      requires Valid()
      modifies this
      ensures (o, Snapshot()) == ExecBlock(ss, old(Snapshot()), fuel)
      decreases fuel, ss, 0, 0
    {
      var i := 0;
      while i < |ss|
        invariant 0 <= i <= |ss| && Valid()
        invariant ExecBlock(ss, old(Snapshot()), fuel) == ExecBlock(ss[i..], Snapshot(), fuel)
      {
        assert ss[i..][1..] == ss[i + 1..];
        o := ExecStmt(ss[i], fuel);
        if o != Normal {
          return;
        }
        i := i + 1;
      }
      return Normal;
    }

    /** `eval_stmt` (interpreter.py:31-103). */
    method ExecStmt(s: Stmt, fuel: nat) returns (o: Outcome)
      requires Valid()
      modifies this
      ensures (o, Snapshot()) == Exec(s, old(Snapshot()), fuel)
      decreases fuel, s, 2, 0
    {
      match s
      case Printline(args) =>
        o := ExecPrintline(args, fuel);
      case Assignment(name, value) =>
        var v := EvalExpr(value, fuel);
        if v.Abort? {
          return v.signal;
        }
        Set(name, v.value);
        return Normal;
      case If(_, _, _, _) =>
        o := ExecIf(s, fuel);
      case For(_, _, _) =>
        o := ExecFor(s, fuel);
      case While(_, _) =>
        o := ExecWhile(s, fuel);
      case Break =>
        return Brk;
      case Continue =>
        return Cont;
      case Func(name, params, block) =>
        Set(name, VFunc(params, block));
        return Normal;
      case Return(result) =>
        if result.None? {
          return Ret(VNone);
        }
        var v := EvalExpr(result.value, fuel);
        if v.Abort? {
          return v.signal;
        }
        return Ret(v.value);
      case Import(path) =>
        if path == "time" {
          Set("time_time", VBuiltin(TimeTime));
          Set("time_sleep", VBuiltin(TimeSleep));
        }
        return Normal;
      case ExprStmt(e) =>
        var v := EvalExpr(e, fuel);
        return if v.Abort? then v.signal else Normal;
    }

    /** The `Printline` case (interpreter.py:32-35): the arguments, then the global
        `printline`. */
    method ExecPrintline(args: seq<Expr>, fuel: nat) returns (o: Outcome)
      requires Valid()
      modifies this
      ensures (o, Snapshot()) == Exec(Printline(args), old(Snapshot()), fuel)
      decreases fuel, args, 1, 0
    {
      var vals := EvalArgs(args, fuel);
      if vals.Abort? {
        return vals.signal;
      }
      if "printline" !in frames[0] {
        return Fail(Undefined("printline"));
      }
      var res := Invoke("printline", frames[0]["printline"], vals.value);
      return if res.Abort? then res.signal else Normal;
    }

    /** The `If` case (interpreter.py:39-48). */
    method ExecIf(s: Stmt, fuel: nat) returns (o: Outcome)
      requires Valid() && s.If?
      modifies this
      ensures (o, Snapshot()) == Exec(s, old(Snapshot()), fuel)
      decreases fuel, s, 1, 0
    {
      var c := EvalExpr(s.condition, fuel);
      if c.Abort? {
        return c.signal;
      }
      if Truthy(c.value) {
        o := ExecuteBlock(s.thenBlock, fuel);
        return;
      }
      var taken := ExecElifs(s.elifs, fuel);
      if taken.Some? {
        return taken.value;
      }
      match s.elseBlock
      case Else(b) =>
        o := ExecuteBlock(b, fuel);
      case NoElse =>
        return Normal;
    }

    /** The `elif` loop of the `If` case (interpreter.py:43-46). */
    method ExecElifs(elifs: seq<Elif>, fuel: nat) returns (taken: Option<Outcome>)
      requires Valid()
      modifies this
      ensures (taken, Snapshot()) == ElifChain(elifs, old(Snapshot()), fuel)
      decreases fuel, elifs, 0, 0
    {
      var i := 0;
      while i < |elifs|
        invariant 0 <= i <= |elifs| && frames == old(frames)
        invariant ElifChain(elifs, old(Snapshot()), fuel) == ElifChain(elifs[i..], Snapshot(), fuel)
      {
        assert elifs[i..][1..] == elifs[i + 1..];
        var c := EvalExpr(elifs[i].condition, fuel);
        if c.Abort? {
          return Some(c.signal);
        }
        if Truthy(c.value) {
          var o := ExecuteBlock(elifs[i].block, fuel);
          return Some(o);
        }
        i := i + 1;
      }
      return None;
    }

    /** The `For` case (interpreter.py:49-59). */
    method ExecFor(s: Stmt, fuel: nat) returns (o: Outcome)
      requires Valid() && s.For?
      modifies this
      ensures (o, Snapshot()) == Exec(s, old(Snapshot()), fuel)
      decreases fuel, s, 1, 0
    {
      var bound := EvalExpr(s.rangeExpr, fuel);
      if bound.Abort? {
        return bound.signal;
      }
      if !IsNumber(bound.value) {
        return Fail(BadRangeBound);
      }
      var n := Numeric(bound.value);
      ghost var st1 := Snapshot();
      var i := 0;
      while i < n
        invariant frames == st1.frames
        invariant ForLoop(s.variable, 0, n, s.block, st1, fuel) == ForLoop(s.variable, i, n, s.block, Snapshot(), fuel)
        decreases n - i
      {
        frames := frames + [map[]];
        Set(s.variable, VInt(i));
        assert frames == st1.frames + [map[s.variable := VInt(i)]];
        o := ExecuteBlock(s.block, fuel);
        frames := frames[..|frames| - 1];
        if o == Brk {
          return Normal;
        }
        if o.Ret? || o.Fail? {
          return;
        }
        i := i + 1;
      }
      return Normal;
    }

    /** The `While` case (interpreter.py:60-68); each iteration spends one unit of fuel. */
    method ExecWhile(s: Stmt, fuel: nat) returns (o: Outcome)
      requires Valid() && s.While?
      modifies this
      ensures (o, Snapshot()) == Exec(s, old(Snapshot()), fuel)
      decreases fuel, s, 1, 0
    {
      var f: nat := fuel;
      ghost var spec := WhileLoop(s.condition, s.block, Snapshot(), fuel);
      assert Exec(s, Snapshot(), fuel) == spec;
      while true
        invariant f <= fuel && frames == old(frames)
        invariant spec == WhileLoop(s.condition, s.block, Snapshot(), f)
        decreases f
      {
        var c := EvalExpr(s.condition, f);
        if c.Abort? {
          return c.signal;
        }
        if !Truthy(c.value) {
          return Normal;
        }
        if f == 0 {
          return Fail(OutOfFuel);
        }
        ghost var st1 := Snapshot();
        frames := frames + [map[]];
        o := ExecuteBlock(s.block, f - 1);
        ghost var st2 := Snapshot();
        assert (o, st2) == ExecBlock(s.block, Push(st1, map[]), f - 1);
        frames := frames[..|frames| - 1];
        assert Snapshot() == Pop(st2);
        if o == Brk {
          return Normal;
        }
        if o.Ret? || o.Fail? {
          return;
        }
        f := f - 1;
      }
    }

    /** `eval_expr` (interpreter.py:105-143). */
    method EvalExpr(e: Expr, fuel: nat) returns (r: Flow<Value>)
      requires Valid()
      modifies this
      ensures (r, Snapshot()) == Eval(e, old(Snapshot()), fuel)
      decreases fuel, e, 0, 0
    {
      match e
      case Literal(lit) =>
        return Done(LitValue(lit));
      case Variable(name) =>
        var v := Lookup(frames, name);
        return if v.Some? then Done(v.value) else Abort(Fail(Undefined(name)));
      case BinOp(left, op, right) =>
        var l := EvalExpr(left, fuel);
        if l.Abort? {
          return l;
        }
        var rv := EvalExpr(right, fuel);
        if rv.Abort? {
          return rv;
        }
        var v := Apply(op, l.value, rv.value);
        return if v.Ok? then Done(v.value) else Abort(Fail(v.error));
      case Call(callee, args) =>
        r := EvaluateCall(callee, args, fuel);
      case Table(pairs) =>
        var t := EvalTable(pairs, fuel);
        return if t.Done? then Done(VTable(t.value)) else Abort(t.signal);
    }

    /** `[self.eval_expr(arg, env) for arg in args]`. */
    method EvalArgs(es: seq<Expr>, fuel: nat) returns (r: Flow<seq<Value>>)
      requires Valid()
      modifies this
      ensures (r, Snapshot()) == EvalList(es, [], old(Snapshot()), fuel)
      decreases fuel, es, 0, 0
    {
      var vals: seq<Value> := [];
      var i := 0;
      while i < |es|
        invariant 0 <= i <= |es| && frames == old(frames)
        invariant EvalList(es, [], old(Snapshot()), fuel) == EvalList(es[i..], vals, Snapshot(), fuel)
      {
        assert es[i..][1..] == es[i + 1..];
        var v := EvalExpr(es[i], fuel);
        if v.Abort? {
          return Abort(v.signal);
        }
        vals := vals + [v.value];
        i := i + 1;
      }
      return Done(vals);
    }

    /** The `Table` case (interpreter.py:135-139). */
    method EvalTable(pairs: seq<Entry<Expr>>, fuel: nat) returns (r: Flow<seq<Entry<Value>>>)
      requires Valid()
      modifies this
      ensures (r, Snapshot()) == EvalPairs(pairs, [], old(Snapshot()), fuel)
      decreases fuel, pairs, 0, 0
    {
      var table: seq<Entry<Value>> := [];
      var i := 0;
      while i < |pairs|
        invariant 0 <= i <= |pairs| && frames == old(frames)
        invariant EvalPairs(pairs, [], old(Snapshot()), fuel) == EvalPairs(pairs[i..], table, Snapshot(), fuel)
      {
        assert pairs[i..][1..] == pairs[i + 1..];
        var v := EvalExpr(pairs[i].value, fuel);
        if v.Abort? {
          return Abort(v.signal);
        }
        table := Put(table, pairs[i].key, v.value);
        i := i + 1;
      }
      return Done(table);
    }

    /** The `Call` case (interpreter.py:78-93). */
    method EvaluateCall(callee: string, args: seq<Expr>, fuel: nat) returns (r: Flow<Value>)
      requires Valid()
      modifies this
      ensures (r, Snapshot()) == EvalCall(callee, args, old(Snapshot()), fuel)
      decreases fuel, args, 1, 0
    {
      var f := Lookup(frames, callee);
      if f.None? {
        return Abort(Fail(Undefined(callee)));
      }
      var vals := EvalArgs(args, fuel);
      if vals.Abort? {
        return Abort(vals.signal);
      }
      if f.value.VFunc? {
        if fuel == 0 {
          return Abort(Fail(OutOfFuel));
        }
        r := EnterFunction(f.value.params, f.value.body, vals.value, fuel - 1);
      } else {
        r := Invoke(callee, f.value, vals.value);
      }
    }

    /** A call of a `FuncDef` (interpreter.py:82-89). */
    method EnterFunction(params: seq<string>, body: seq<Stmt>, args: seq<Value>, fuel: nat)
      returns (r: Flow<Value>)
      requires Valid()
      modifies this
      ensures (r, Snapshot()) == CallFunction(params, body, args, old(Snapshot()), fuel)
      decreases fuel, body, 1, 0
    {
      frames := frames + [map[]];
      var k := 0;
      while k < |params| && k < |args|
        invariant 0 <= k <= |params| && k <= |args|
        invariant |frames| == |old(frames)| + 1 && frames[..|old(frames)|] == old(frames)
        invariant output == old(output)
        invariant ZipBind(map[], params, args) == ZipBind(frames[|old(frames)|], params[k..], args[k..])
      {
        assert params[k..][1..] == params[k + 1..] && args[k..][1..] == args[k + 1..];
        Set(params[k], args[k]);
        k := k + 1;
      }
      assert frames == old(frames) + [ZipBind(map[], params, args)];
      var o := ExecuteBlock(body, fuel);
      frames := frames[..|frames| - 1];
      match o
      case Ret(v) => return Done(v);
      case Normal => return Done(VNone);
      case _ => return Abort(o);
    }

    /** `func(args)` for a host callable (interpreter.py:90-93, 149-158). */
    method Invoke(callee: string, f: Value, args: seq<Value>) returns (r: Flow<Value>)
      modifies this`output
      ensures (r, Snapshot()) == CallBuiltin(callee, f, args, old(Snapshot()))
    {
      match f
      case VBuiltin(b) =>
        if b == PrintLine || b == PrintLineF {
          output := output + [args];
          return Done(VNone);
        } else if b == Range {
          if |args| == 1 {
            return Done(args[0]);
          }
          return Abort(Fail(RangeArguments(|args|)));
        }
        return Abort(Fail(Unmodelled(b)));
      case _ =>
        return Abort(Fail(NotCallable(callee)));
    }
  }
}
