/**
 * The tree-walking evaluator (craftinginterpreters/Interpreter.py and the
 * `call` methods of LoxCallable.py).
 *
 * The interpreter's own state is the current environment, the `locals`
 * depths the resolver records (keyed by node id), the text printed so far
 * and the errors reported; environments and objects live in the heap.
 * `time.time()` is the parameter `clock`, applied to the number of earlier
 * clock() calls; `float()` of a string is `parse`; `str()` of a float is
 * `numText`. A Lox program need not terminate, so every call and every loop
 * iteration spends one unit of `fuel`; running out is the outcome OutOfFuel.
 */
module Interpreter {
  import opened Basics
  import Tokens
  import opened Ast
  import opened Values
  import opened Environment
  import opened Callables
  import opened Runtime
  import opened Operations

  /** A statement can finish by `break` only through a break that is not inside a loop or a function body. */
  predicate FreeBreak(s: Stmt) {
    match s
    case Break(_) => true
    case Block(ss) => exists i :: 0 <= i < |ss| && FreeBreak(ss[i])
    case If(_, t, e) => FreeBreak(t) || (e.Some? && FreeBreak(e.value))
    case _ => false
  }

  /** How `interpret` ends: all statements ran, an EvaluationError was reported, an exception escaped, or fuel ran out. */
  datatype RunResult = Completed | Reported(err: EvalError) | Crashed(reason: string) | Exhausted

  /** The value a call returns, as a result (None from CallResult is the NameError of a missing `this`). */
  function Returned(r: Option<Value>): Result<Value, Abort> {
    if r.Some? then Ok(r.value) else Err(Crash("NameError: this"))
  }

  function ReturnedValue(o: Outcome): Option<Value> {
    if o.ReturnSignal? then Some(o.value) else None
  }

  /**
   * `lookUpVariable`, evaluated in environment `env`: a reference without a
   * recorded depth is looked up in the globals (an unbound name is
   * reported); one with a depth is fetched from that ancestor of `env` (a
   * failure there escapes).
   */
  function LookUp(h: HeapState, env: nat, locals: map<nat, nat>, name: Token, id: nat): (r: Result<Value, Abort>)
    requires Wf(h) && env < |h.frames|
    ensures r.Ok? ==> ValueIn(h, r.value)
    ensures id !in locals ==> (r.Ok? <==> Fetch(h.frames, 0, name.lexeme).Some?)
    ensures id !in locals && r.Err? ==> r.error == Error(EvalError(name, "Undefined name " + name.lexeme))
    ensures id in locals && Distance(h.frames, env, name.lexeme) == Some(locals[id]) ==>
      r.Ok? && Fetch(h.frames, env, name.lexeme) == Some(r.value)
  {
    FetchInHeap(h, 0, name.lexeme);
    if id !in locals then
      match Fetch(h.frames, 0, name.lexeme)
      case None => Err(Error(EvalError(name, "Undefined name " + name.lexeme)))
      case Some(v) => Ok(v)
    else
      var d := locals[id];
      if Distance(h.frames, env, name.lexeme) == Some(d) then
        GetAtAgreesWithFetch(h.frames, env, name.lexeme);
        FetchIsNearest(h.frames, env, name.lexeme);
        LookUpAt(h, env, name, d)
      else
        LookUpAt(h, env, name, d)
  }

  /** `getAt(d, name)` from environment `env`, with its failures as escaping exceptions. */
  function LookUpAt(h: HeapState, env: nat, name: Token, d: nat): (r: Result<Value, Abort>)
    requires Wf(h) && env < |h.frames|
    ensures r.Ok? ==> ValueIn(h, r.value)
    ensures GetAt(h.frames, env, d, name.lexeme).Ok? && GetAt(h.frames, env, d, name.lexeme).value.Some? ==>
      r == Ok(GetAt(h.frames, env, d, name.lexeme).value.value)
  {
    match GetAt(h.frames, env, d, name.lexeme)
    case Err(msg) => Err(Crash("AttributeError: " + msg))
    case Ok(None) => Err(Crash("NameError: " + name.lexeme))
    case Ok(Some(v)) =>
      FetchInHeap(h, Ancestor(h.frames, env, d).value, name.lexeme);
      Ok(v)
  }

  /**
   * What an expression is evaluated against: the heap, the current
   * environment, the depths the resolver recorded, and `float()` of a string.
   */
  datatype Snapshot = Snapshot(h: HeapState, env: nat, locals: map<nat, nat>, parse: string -> Option<real>)

  predicate SnapshotWf(sn: Snapshot) {
    Wf(sn.h) && sn.env < |sn.h.frames|
  }

  /**
   * The expressions whose evaluation changes nothing: literals, groupings,
   * variables, `this`, and the unary, binary and logical operators over them.
   * Calls, assignments, property access and `super` may change the heap.
   */
  predicate Pure(e: Expr) {
    match e
    case Literal(_) => true
    case Grouping(x) => Pure(x)
    case Variable(_, _) => true
    case This(_, _) => true
    case Unary(_, x) => Pure(x)
    case Binary(l, _, r) => Pure(l) && Pure(r)
    case Logical(l, _, r) => Pure(l) && Pure(r)
    case _ => false
  }

  predicate AllPure(es: seq<Expr>) {
    forall j :: 0 <= j < |es| ==> Pure(es[j])
  }

  /**
   * `clock()`: a call without arguments whose callee is pure and is the
   * native clock. Its only effect is one reading of the clock, which makes
   * the number of times an expression is evaluated observable.
   */
  predicate ClockCall(sn: Snapshot, e: Expr) {
    SnapshotWf(sn) && e.Call? && e.arguments == [] && Pure(e.callee) && PureValue(sn, e.callee) == Ok(Clock)
  }

  /**
   * The value of a pure expression, as visitLiteral, visitGrouping,
   * lookUpVariable, visitUnary, visitBinary and visitLogical compute it: the
   * left operand first, an error stopping evaluation, and the right operand
   * of `and`/`or` only when the left one does not decide.
   */
  function PureValue(sn: Snapshot, e: Expr): (r: Result<Value, Abort>)
    requires SnapshotWf(sn) && Pure(e)
    ensures r.Ok? ==> ValueIn(sn.h, r.value)
  {
    match e
    case Literal(l) => Ok(LiteralToValue(l))
    case Grouping(x) => PureValue(sn, x)
    case Variable(id, name) => LookUp(sn.h, sn.env, sn.locals, name, id)
    case This(id, keyword) => LookUp(sn.h, sn.env, sn.locals, keyword, id)
    case Unary(op, x) =>
      var v := PureValue(sn, x);
      if v.Err? then v else UnaryOp(op, v.value, sn.parse)
    case Binary(l, op, x) =>
      var a := PureValue(sn, l);
      if a.Err? then a
      else
        var b := PureValue(sn, x);
        if b.Err? then b else BinaryOp(op, a.value, b.value, sn.parse)
    case Logical(l, op, x) =>
      var a := PureValue(sn, l);
      if a.Err? || ShortCircuits(op.kind, a.value) then a else PureValue(sn, x)
  }

  /** The arguments of a call, left to right, stopping at the first error. */
  function PureValues(sn: Snapshot, es: seq<Expr>): (r: Result<seq<Value>, Abort>)
    requires SnapshotWf(sn) && AllPure(es)
    ensures r.Ok? ==> |r.value| == |es| && forall j :: 0 <= j < |es| ==> PureValue(sn, es[j]) == Ok(r.value[j])
    decreases |es|
  {
    if es == [] then Ok([])
    else
      var front := PureValues(sn, es[..|es| - 1]);
      if front.Err? then front
      else
        var v := PureValue(sn, es[|es| - 1]);
        if v.Err? then Err(v.error) else Ok(front.value + [v.value])
  }

  /** One more argument that evaluates: the values so far grow by its value. */
  lemma PureValuesExtend(sn: Snapshot, es: seq<Expr>, i: nat, vs: seq<Value>, v: Value)
    requires SnapshotWf(sn) && AllPure(es) && i < |es| && AllPure(es[..i])
    requires PureValues(sn, es[..i]) == Ok(vs) && PureValue(sn, es[i]) == Ok(v)
    ensures AllPure(es[..i + 1]) && PureValues(sn, es[..i + 1]) == Ok(vs + [v])
  {
    assert es[..i + 1][..i] == es[..i];
    assert es[..i + 1][i] == es[i];
  }

  /** The first argument that fails decides the error of the whole list. */
  lemma PureValuesFailAt(sn: Snapshot, es: seq<Expr>, i: nat)
    requires SnapshotWf(sn) && AllPure(es) && i < |es| && AllPure(es[..i])
    requires PureValues(sn, es[..i]).Ok? && PureValue(sn, es[i]).Err?
    ensures PureValues(sn, es) == Err(PureValue(sn, es[i]).error)
  {
    assert es[..i + 1][..i] == es[..i];
    assert es[..i + 1][i] == es[i];
    assert AllPure(es[..i + 1]);
    PureValuesStopAtError(sn, es, i + 1);
  }

  /** Binding one more parameter updates the map of the shorter prefix. */
  lemma BindParamsExtend(params: seq<Token>, args: seq<Value>, i: nat)
    requires i < |params| && i < |args|
    ensures BindParams(map[], params[..i + 1], args[..i + 1]) == BindParams(map[], params[..i], args[..i])[params[i].lexeme := args[i]]
  {
    assert params[..i + 1][..i] == params[..i] && args[..i + 1][..i] == args[..i];
  }

  /** Only as many parameters as arguments are bound, as Python's `zip` does. */
  lemma BindParamsPrefix(params: seq<Token>, args: seq<Value>, n: nat)
    requires n == if |params| < |args| then |params| else |args|
    ensures BindParams(map[], params[..n], args[..n]) == BindParams(map[], params, args)
  {
    if n > 0 {
      assert params[..n][..n - 1] == params[..n - 1] && args[..n][..n - 1] == args[..n - 1];
    }
  }

  /** Once an argument fails, the later ones no longer matter: the whole list fails with that error. */
  lemma {:induction false} PureValuesStopAtError(sn: Snapshot, es: seq<Expr>, k: nat)
    requires SnapshotWf(sn) && AllPure(es) && k <= |es|
    requires PureValues(sn, es[..k]).Err?
    ensures PureValues(sn, es) == PureValues(sn, es[..k])
    decreases |es| - k
  {
    if k < |es| {
      var front := es[..|es| - 1];
      assert front[..k] == es[..k];
      PureValuesStopAtError(sn, front, k);
    } else {
      assert es[..k] == es;
    }
  }

  /** `1 + 2` evaluates to 3, whatever the state. */
  lemma OnePlusTwo(sn: Snapshot, plus: Token)
    requires SnapshotWf(sn) && plus.kind == Tokens.Plus
    ensures var e := Binary(Literal(LNumber(1.0)), plus, Literal(LNumber(2.0)));
      Pure(e) && PureValue(sn, e) == Ok(Num(3.0))
  {
  }

  /** A division whose divisor evaluates to zero is the reported error at the `/` token, not a value. */
  lemma DivisionByZeroInExpression(sn: Snapshot, left: Expr, slash: Token, right: Expr)
    requires SnapshotWf(sn) && Pure(left) && Pure(right) && slash.kind == Tokens.Slash
    requires PureValue(sn, left).Ok? && Numeric(PureValue(sn, left).value)
    requires PureValue(sn, right) == Ok(Num(0.0))
    ensures PureValue(sn, Binary(left, slash, right)) == Err(Error(EvalError(slash, "Cannot divide by zero")))
  {
  }

  /** `or` with a truthy left operand never evaluates the right one: even a failing right operand does not matter. */
  lemma OrSkipsRight(sn: Snapshot, left: Expr, orOp: Token, right: Expr)
    requires SnapshotWf(sn) && Pure(left) && Pure(right) && orOp.kind == Tokens.Or
    requires PureValue(sn, left).Ok? && IsTruthy(PureValue(sn, left).value)
    ensures PureValue(sn, Logical(left, orOp, right)) == PureValue(sn, left)
  {
  }

  /** How a statement's evaluation result becomes its outcome: a value leaves by `return`, an error aborts. */
  function ReturnOf(r: Result<Value, Abort>): Outcome {
    if r.Ok? then ReturnSignal(r.value) else Abrupt(r.error)
  }

  /**
   * The outcome of a statement that ends abruptly without changing anything:
   * `break`, `return` of a pure value (or none), and an expression or print
   * statement whose pure expression fails. None for every other statement.
   */
  function Immediate(sn: Snapshot, s: Stmt): (r: Option<Outcome>)
    requires SnapshotWf(sn)
    ensures r.Some? ==> !r.value.Normal?
  {
    match s
    case Break(_) => Some(BreakSignal)
    case Return(_, value) =>
      if value.None? then Some(ReturnSignal(Nil))
      else if Pure(value.value) then Some(ReturnOf(PureValue(sn, value.value)))
      else None
    case Expression(x) =>
      if Pure(x) && PureValue(sn, x).Err? then Some(Abrupt(PureValue(sn, x).error)) else None
    case Print(x) =>
      if Pure(x) && PureValue(sn, x).Err? then Some(Abrupt(PureValue(sn, x).error)) else None
    case _ => None
  }

  /** An expression statement whose pure expression succeeds: it completes normally and changes nothing. */
  predicate QuietNormal(sn: Snapshot, s: Stmt)
    requires SnapshotWf(sn)
  {
    s.Expression? && Pure(s.expression) && PureValue(sn, s.expression).Ok?
  }

  /**
   * The outcome of a statement list whose statements, up to the first that
   * ends abruptly, all complete quietly: that statement's outcome. None when
   * the list has no such statement or some earlier statement has effects.
   */
  function FirstAbrupt(sn: Snapshot, ss: seq<Stmt>): (r: Option<Outcome>)
    requires SnapshotWf(sn)
    ensures r.Some? ==> !r.value.Normal?
    decreases |ss|
  {
    if ss == [] then None
    else if Immediate(sn, ss[0]).Some? then Immediate(sn, ss[0])
    else if QuietNormal(sn, ss[0]) then FirstAbrupt(sn, ss[1..])
    else None
  }

  /** Statements after the first abrupt one do not matter: `{ 1; break; print x; }` ends by `break`. */
  lemma {:induction false} FirstAbruptIgnoresRest(sn: Snapshot, ss: seq<Stmt>, rest: seq<Stmt>)
    requires SnapshotWf(sn) && FirstAbrupt(sn, ss).Some?
    ensures FirstAbrupt(sn, ss + rest) == FirstAbrupt(sn, ss)
    decreases |ss|
  {
    var all := ss + rest;
    assert all != [] && all[0] == ss[0];
    if Immediate(sn, ss[0]).None? {
      assert QuietNormal(sn, ss[0]) && FirstAbrupt(sn, ss) == FirstAbrupt(sn, ss[1..]);
      assert all[1..] == ss[1..] + rest;
      FirstAbruptIgnoresRest(sn, ss[1..], rest);
    }
  }

  /**
   * What a `var` statement binds when that is known before it runs: nil
   * without an initializer, else a pure initializer's PureValue (or its
   * error). None for an initializer with effects.
   */
  function VarValue(sn: Snapshot, s: Stmt): Option<Result<Value, Abort>>
    requires SnapshotWf(sn) && s.Var?
  {
    if s.initializer.None? then Some(Ok(Nil))
    else if Pure(s.initializer.value) then Some(PureValue(sn, s.initializer.value))
    else None
  }

  /**
   * What a declaration known before it runs does to the heap: a `var` whose
   * VarValue is Ok(x) defines its name as x in the current environment and an
   * error leaves the heap as it was; a `fun` defines its name as a new
   * function, closing over the current environment.
   */
  predicate Declares(sn: Snapshot, s: Stmt, o: Outcome, h1: HeapState)
    requires SnapshotWf(sn)
  {
    && (s.Var? && VarValue(sn, s).Some? ==>
         match VarValue(sn, s).value
         case Ok(x) => o == Normal && h1 == sn.h.(frames := Defined(sn.h.frames, sn.env, s.name.lexeme, x))
         case Err(a) => o == Abrupt(a) && h1 == sn.h)
    && (s.Function? ==>
         o == Normal &&
         h1 == sn.h.(
           frames := Defined(sn.h.frames, sn.env, s.decl.name.lexeme, FunRef(|sn.h.functions|)),
           functions := sn.h.functions + [FunctionObj(s.decl, sn.env, false)]))
  }

  /**
   * How `LoxFunction.call` of function `f` on `args` ends, from heap `h0` to
   * heap `h1`. `entry` is the heap the body starts from: `h0` with one new
   * frame, enclosed by the closure, binding the parameters; `outcome` is how
   * the body ended. An abrupt body's error escapes; otherwise the result is
   * CallResult: the returned value, nil, or `this` for an initializer. A
   * body that ends abruptly before any effect ends as FirstAbrupt says, and
   * an empty body completes normally. Without fuel the call is OutOfFuel and
   * changes nothing.
   */
  predicate FunctionCall(h0: HeapState, h1: HeapState, f: nat, args: seq<Value>, fuel: nat,
                         locals: map<nat, nat>, parse: string -> Option<real>,
                         r: Result<Value, Abort>, outcome: Outcome, entry: HeapState)
  {
    && Wf(h0) && Wf(h1) && Grows(h0, h1) && f < |h0.functions|
    && (outcome.Abrupt? ==> r == Err(outcome.abort))
    && (!outcome.Abrupt? ==> r == Returned(CallResult(h1, f, ReturnedValue(outcome))))
    && (fuel == 0 ==> r == Err(OutOfFuel) && h1 == h0)
    && (fuel > 0 ==>
          var fn := h0.functions[f];
          && entry == h0.(frames := h0.frames + [Frame(BindParams(map[], fn.declaration.params, args), Some(fn.closure))])
          && Wf(entry) && Grows(entry, h1)
          && (FirstAbrupt(Snapshot(entry, |h0.frames|, locals, parse), fn.declaration.body).Some? ==>
                outcome == FirstAbrupt(Snapshot(entry, |h0.frames|, locals, parse), fn.declaration.body).value)
          && (fn.declaration.body == [] ==> outcome == Normal))
  }

  /**
   * A function whose body starts with `return e;`, for a pure `e`, returns
   * the value of `e` in the frame the call opens, or fails with its error:
   * `fun one() { return 1; } one()` is 1.
   */
  lemma ReturnFirstIsResult(h0: HeapState, h1: HeapState, f: nat, args: seq<Value>, fuel: nat,
                            locals: map<nat, nat>, parse: string -> Option<real>,
                            r: Result<Value, Abort>, outcome: Outcome, entry: HeapState, keyword: Token, e: Expr)
    requires Wf(h0) && Wf(h1) && Grows(h0, h1) && f < |h0.functions| && fuel > 0
    requires FunctionCall(h0, h1, f, args, fuel, locals, parse, r, outcome, entry)
    requires !h0.functions[f].isInitializer && Pure(e)
    requires |h0.functions[f].declaration.body| > 0 && h0.functions[f].declaration.body[0] == Return(keyword, Some(e))
    ensures SnapshotWf(Snapshot(entry, |h0.frames|, locals, parse))
    ensures r == PureValue(Snapshot(entry, |h0.frames|, locals, parse), e)
  {
    var sn := Snapshot(entry, |h0.frames|, locals, parse);
    assert Immediate(sn, Return(keyword, Some(e))) == Some(ReturnOf(PureValue(sn, e)));
    assert h1.functions[f] == h0.functions[f];
  }

  /**
   * How `LoxClass.call` of class `c` on `args` ends, from heap `h0` to heap
   * `h1`: a success is the new instance, of class `c`, and without `init`
   * that is the result at once. With `init`, `entry` is the heap the body of
   * `init` starts from: the new fieldless instance, `init` bound to it (a
   * frame binding `this`), and the call's frame binding the parameters.
   */
  predicate ClassCall(h0: HeapState, h1: HeapState, c: nat, args: seq<Value>, fuel: nat, r: Result<Value, Abort>, entry: HeapState)
  {
    && Wf(h0) && Wf(h1) && Grows(h0, h1) && c < |h0.classes|
    && (r.Ok? ==> r == Ok(InstanceRef(|h0.instances|)) && |h0.instances| < |h1.instances| && h1.instances[|h0.instances|].klass == c)
    && (FindMethod(h0, c, InitName).None? ==> r == Ok(InstanceRef(|h0.instances|)))
    && (FindMethod(h0, c, InitName).Some? && fuel == 0 ==> r == Err(OutOfFuel))
    && (FindMethod(h0, c, InitName).Some? && fuel > 0 ==>
          var init := h0.functions[FindMethod(h0, c, InitName).value];
          var bound := |h0.frames|;
          && entry.instances == h0.instances + [InstanceObj(c, map[])]
          && entry.functions == h0.functions + [FunctionObj(init.declaration, bound, init.isInitializer)]
          && entry.frames == h0.frames + [
               Frame(map["this" := InstanceRef(|h0.instances|)], Some(init.closure)),
               Frame(BindParams(map[], init.declaration.params, args), Some(bound))]
          && Grows(entry, h1))
  }

  /** The names `visitSuper` looks up, as tokens at the line of the `super` keyword. */
  function SuperName(line: int): Token {
    Tokens.Token(Tokens.Super, "super", Tokens.NoLiteral, line)
  }

  function ThisName(line: int): Token {
    Tokens.Token(Tokens.This, "this", Tokens.NoLiteral, line)
  }

  /**
   * The method table `visitClass` builds: each declaration, in order, maps
   * its name to the function made for it, numbered from `base`, so a later
   * declaration of a name replaces an earlier one.
   */
  function MethodTable(decls: seq<FunDecl>, base: nat): (m: map<string, nat>)
    ensures forall k :: k in m ==> base <= m[k] < base + |decls|
    decreases |decls|
  {
    if decls == [] then map[]
    else MethodTable(decls[..|decls| - 1], base)[decls[|decls| - 1].name.lexeme := base + |decls| - 1]
  }

  /** The table has exactly one entry per declared name. */
  lemma {:induction false} MethodTableKeys(decls: seq<FunDecl>, base: nat)
    ensures MethodTable(decls, base).Keys == set j | 0 <= j < |decls| :: decls[j].name.lexeme
    decreases |decls|
  {
    if decls != [] {
      var n := |decls| - 1;
      MethodTableKeys(decls[..n], base);
      assert forall j :: 0 <= j < n ==> decls[..n][j] == decls[j];
      assert (set j | 0 <= j < |decls| :: decls[j].name.lexeme) == (set j | 0 <= j < n :: decls[..n][j].name.lexeme) + {decls[n].name.lexeme};
    }
  }

  /** A name's entry is a declaration of that name. */
  lemma {:induction false} MethodTableNamed(decls: seq<FunDecl>, base: nat, k: string)
    requires k in MethodTable(decls, base)
    ensures decls[MethodTable(decls, base)[k] - base].name.lexeme == k
    decreases |decls|
  {
    var n := |decls| - 1;
    if decls[n].name.lexeme != k {
      MethodTableNamed(decls[..n], base, k);
    }
  }

  /** A name's entry is its last declaration: no later one has that name. */
  lemma {:induction false} MethodTableLast(decls: seq<FunDecl>, base: nat, k: string)
    requires k in MethodTable(decls, base)
    ensures var j := MethodTable(decls, base)[k] - base;
      0 <= j < |decls| && decls[j].name.lexeme == k &&
      forall later :: j < later < |decls| ==> decls[later].name.lexeme != k
    decreases |decls|
  {
    var n := |decls| - 1;
    if decls[n].name.lexeme != k {
      MethodTableLast(decls[..n], base, k);
      assert forall j :: 0 <= j < n ==> decls[..n][j] == decls[j];
    }
  }

  /** The functions `visitClass` makes, one per declaration in order, closing over `closure`; `init` is the initializer. */
  function MethodObjects(decls: seq<FunDecl>, closure: nat): seq<FunctionObj> {
    seq(|decls|, j requires 0 <= j < |decls| => FunctionObj(decls[j], closure, decls[j].name.lexeme == InitName))
  }

  /** Declaring one more method appends one function object. */
  lemma MethodObjectsStep(decls: seq<FunDecl>, closure: nat, i: nat)
    requires i < |decls|
    ensures MethodObjects(decls[..i + 1], closure) ==
      MethodObjects(decls[..i], closure) + [FunctionObj(decls[i], closure, decls[i].name.lexeme == InitName)]
  {
    assert decls[..i + 1][..i] == decls[..i];
  }

  /** The method object at position `m` of the functions `fs` followed by the class's method objects. */
  lemma MethodObjectAt(fs: seq<FunctionObj>, decls: seq<FunDecl>, closure: nat, m: nat)
    requires |fs| <= m < |fs| + |decls|
    ensures (fs + MethodObjects(decls, closure))[m] ==
      FunctionObj(decls[m - |fs|], closure, decls[m - |fs|].name.lexeme == InitName)
  {
  }

  /** Every entry of the method table names the function made for a declaration of that name. */
  lemma MethodTableEntries(fs: seq<FunctionObj>, decls: seq<FunDecl>, closure: nat)
    ensures forall k :: k in MethodTable(decls, |fs|) ==>
      && (fs + MethodObjects(decls, closure))[MethodTable(decls, |fs|)[k]] ==
           FunctionObj(decls[MethodTable(decls, |fs|)[k] - |fs|], closure, k == InitName)
      && decls[MethodTable(decls, |fs|)[k] - |fs|].name.lexeme == k
  {
    var table := MethodTable(decls, |fs|);
    forall k | k in table
      ensures decls[table[k] - |fs|].name.lexeme == k
      ensures (fs + MethodObjects(decls, closure))[table[k]] == FunctionObj(decls[table[k] - |fs|], closure, k == InitName)
    {
      MethodTableNamed(decls, |fs|, k);
      MethodObjectAt(fs, decls, closure, table[k]);
    }
  }

  /**
   * The heap after `visitClass` declares class `name` in environment `env`
   * of `h`: the name bound in `env` to the new class; with a superclass, one
   * new environment binding `super`, which the methods close over; one new
   * function per declaration; and the class, whose methods are MethodTable.
   */
  function ClassDeclared(h: HeapState, env: nat, name: string, decls: seq<FunDecl>, superclass: Option<nat>): HeapState
    requires env < |h.frames|
  {
    var closure := if superclass.Some? then |h.frames| else env;
    var scope := if superclass.Some? then [Frame(map["super" := ClassRef(superclass.value)], Some(env))] else [];
    HeapState(
      Defined(h.frames, env, name, ClassRef(|h.classes|)) + scope,
      h.functions + MethodObjects(decls, closure),
      h.classes + [ClassObj(name, MethodTable(decls, |h.functions|), superclass)],
      h.instances)
  }

  /** Assigning a name just defined in environment `e` rebinds it there, whatever environments were added since. */
  lemma DefineThenAssign(frames: seq<Frame>, e: nat, name: string, v0: Value, v: Value, scope: seq<Frame>)
    requires e < |frames| && Linked(Defined(frames, e, name, v0) + scope)
    ensures Assigned(Defined(frames, e, name, v0) + scope, e, name, v) == Some(Defined(frames, e, name, v) + scope)
  {
    var before := Defined(frames, e, name, v0) + scope;
    assert before[e] == frames[e].(values := frames[e].values[name := v0]);
    assert frames[e].values[name := v0][name := v] == frames[e].values[name := v];
    assert Defined(before, e, name, v) == Defined(frames, e, name, v) + scope;
  }

  /** How `interpret` ends on a statement's outcome; None goes on to the next statement. */
  function Ending(o: Outcome): (r: Option<RunResult>)
    ensures r.Some? ==> !r.value.Completed?
  {
    match o
    case Normal => None
    case BreakSignal => None
    case ReturnSignal(_) => Some(Crashed("ReturnUnwinder"))
    case Abrupt(Error(err)) => Some(Reported(err))
    case Abrupt(Crash(reason)) => Some(Crashed(reason))
    case Abrupt(OutOfFuel) => Some(Exhausted)
  }

  class Interpreter {
    const heap: Heap
    const clock: nat -> real
    const parse: string -> Option<real>
    const numText: real -> string
    var environment: nat
    var locals: map<nat, nat>
    var output: seq<string>
    var errors: seq<EvalError>
    var clockCalls: nat

    ghost predicate Valid()
      reads this`environment, heap
    {
      heap.Valid() && environment < |heap.frames|
    }

    /** What an expression evaluated now, in environment `env`, is evaluated against. */
    function NowIn(env: nat): Snapshot
      reads this, heap
    {
      Snapshot(heap.State(), env, locals, parse)
    }

    /** What an expression evaluated now, in the current environment, is evaluated against. */
    function Now(): Snapshot
      reads this, heap
    {
      NowIn(environment)
    }

    /** Nothing observable changed: the heap, the output and the number of clock() calls. */
    twostate predicate Quiet()
      reads this, heap
    {
      heap.State() == old(heap.State()) && output == old(output) && clockCalls == old(clockCalls)
    }

    /** One reading of the clock and nothing else: the heap and the output are unchanged. */
    twostate predicate ReadsClockOnce()
      reads this, heap
    {
      clockCalls == old(clockCalls) + 1 && heap.State() == old(heap.State()) && output == old(output)
    }

    /** One reading of the clock and nothing else, and `r` is that reading. */
    twostate predicate ClockRead(new r: Result<Value, Abort>)
      reads this, heap
    {
      r == Ok(Num(clock(old(clockCalls)))) && ReadsClockOnce()
    }

    /** A fresh interpreter: the globals (environment 0) bind only `clock`. */
    constructor (clock: nat -> real, parse: string -> Option<real>, numText: real -> string)
      ensures Valid() && fresh(heap)
      ensures heap.frames == [Frame(map["clock" := Clock], None)]
      ensures heap.functions == [] && heap.classes == [] && heap.instances == []
      ensures environment == 0 && locals == map[] && output == [] && errors == [] && clockCalls == 0
    {
      this.clock := clock;
      this.parse := parse;
      this.numText := numText;
      var h := new Heap();
      heap := h;
      environment := 0;
      locals := map[];
      output := [];
      errors := [];
      clockCalls := 0;
      new;
      h.Define(0, "clock", Clock);
    }

    /** `resolve`: the resolver records the depth of a variable reference. */
    method Resolve(id: nat, depth: nat)
      modifies this`locals
      ensures locals == old(locals)[id := depth]
    {
      locals := locals[id := depth];
    }

    method Evaluate(e: Expr, fuel: nat) returns (r: Result<Value, Abort>)
      requires Valid()
      modifies this`environment, this`output, this`clockCalls, heap
      ensures Valid() && environment == old(environment) && Grows(old(heap.State()), heap.State())
      ensures r.Ok? ==> ValueIn(heap.State(), r.value)
      ensures Pure(e) ==> r == old(PureValue(Now(), e)) && Quiet()
      ensures old(ClockCall(Now(), e)) ==> ClockRead(r)
      decreases fuel, ExprSize(e), 2
    {
      match e
      case Literal(l) =>
        r := Ok(LiteralToValue(l));
      case Grouping(x) =>
        r := Evaluate(x, fuel);
      case Variable(id, name) =>
        r := LookUp(heap.State(), environment, locals, name, id);
      case This(id, keyword) =>
        r := LookUp(heap.State(), environment, locals, keyword, id);
      case Assign(_, _, _) =>
        ghost var value;
        r, value := VisitAssign(e, fuel);
      case Binary(_, _, _) =>
        ghost var lhs, rhs;
        r, lhs, rhs := VisitBinary(e, fuel);
      case Logical(_, _, _) =>
        ghost var left, right;
        r, left, right := VisitLogical(e, fuel);
      case Unary(_, _) =>
        ghost var operand;
        r, operand := VisitUnary(e, fuel);
      case Call(_, _, _) =>
        ghost var callee, args, before, outcome, entry;
        r, callee, args, before, outcome, entry := VisitCall(e, fuel);
      case Get(_, _) =>
        ghost var target;
        r, target := VisitGet(e, fuel);
      case Set(_, _, _) =>
        ghost var target;
        r, target := VisitSet(e, fuel);
      case Super(_, _, _) =>
        r := VisitSuper(e);
    }

    /**
     * `visitBinary`: both operands left to right, then the operator's rule.
     * `lhs` and `rhs` are the operands' values; a pure operand's value is its
     * PureValue.
     */
    method VisitBinary(e: Expr, fuel: nat) returns (r: Result<Value, Abort>, ghost lhs: Option<Value>, ghost rhs: Option<Value>)
      requires Valid() && e.Binary?
      modifies this`environment, this`output, this`clockCalls, heap
      ensures Valid() && environment == old(environment) && Grows(old(heap.State()), heap.State())
      ensures r.Ok? ==> ValueIn(heap.State(), r.value)
      ensures r.Ok? ==> lhs.Some? && rhs.Some?
      ensures lhs.Some? && rhs.Some? ==> r == BinaryOp(e.operator, lhs.value, rhs.value, parse)
      ensures lhs.Some? && Pure(e.left) ==> old(PureValue(Now(), e.left)) == Ok(lhs.value)
      ensures rhs.Some? && Pure(e.right) ==> PureValue(Now(), e.right) == Ok(rhs.value)
      ensures Pure(e) ==> r == old(PureValue(Now(), e)) && Quiet()
      decreases fuel, ExprSize(e), 1
    {
      lhs, rhs := None, None;
      var left := Evaluate(e.left, fuel);
      if left.Err? {
        return Err(left.error), lhs, rhs;
      }
      lhs := Some(left.value);
      var right := Evaluate(e.right, fuel);
      if right.Err? {
        return Err(right.error), lhs, rhs;
      }
      rhs := Some(right.value);
      r := BinaryOp(e.operator, left.value, right.value, parse);
    }

    /**
     * `visitLogical`: the right operand is evaluated only when the left does
     * not decide. `left` and `right` are the operands' values; a pure
     * operand's value is its PureValue.
     */
    method VisitLogical(e: Expr, fuel: nat) returns (r: Result<Value, Abort>, ghost left: Option<Value>, ghost right: Option<Value>)
      requires Valid() && e.Logical?
      modifies this`environment, this`output, this`clockCalls, heap
      ensures Valid() && environment == old(environment) && Grows(old(heap.State()), heap.State())
      ensures r.Ok? ==> ValueIn(heap.State(), r.value)
      ensures r.Ok? ==> left.Some?
      ensures left.Some? && ShortCircuits(e.operator.kind, left.value) ==> r == Ok(left.value) && right.None?
      ensures left.Some? && right.Some? ==> r == Ok(LogicalValue(e.operator.kind, left.value, right.value))
      ensures left.Some? && Pure(e.left) ==> old(PureValue(Now(), e.left)) == Ok(left.value)
      ensures right.Some? && Pure(e.right) ==> PureValue(Now(), e.right) == Ok(right.value)
      ensures Pure(e) ==> r == old(PureValue(Now(), e)) && Quiet()
      decreases fuel, ExprSize(e), 1
    {
      left, right := None, None;
      var l := Evaluate(e.left, fuel);
      if l.Err? {
        return l, left, right;
      }
      left := Some(l.value);
      if ShortCircuits(e.operator.kind, l.value) {
        return l, left, right;
      }
      r := Evaluate(e.right, fuel);
      if r.Ok? {
        right := Some(r.value);
      }
    }

    /** `visitUnary`. `operand` is the operand's value; a pure operand's value is its PureValue. */
    method VisitUnary(e: Expr, fuel: nat) returns (r: Result<Value, Abort>, ghost operand: Option<Value>)
      requires Valid() && e.Unary?
      modifies this`environment, this`output, this`clockCalls, heap
      ensures Valid() && environment == old(environment) && Grows(old(heap.State()), heap.State())
      ensures r.Ok? ==> ValueIn(heap.State(), r.value)
      ensures r.Ok? ==> operand.Some?
      ensures operand.Some? ==> r == UnaryOp(e.operator, operand.value, parse)
      ensures operand.Some? && Pure(e.right) ==> old(PureValue(Now(), e.right)) == Ok(operand.value)
      ensures Pure(e) ==> r == old(PureValue(Now(), e)) && Quiet()
      decreases fuel, ExprSize(e), 1
    {
      operand := None;
      var v := Evaluate(e.right, fuel);
      if v.Err? {
        return v, operand;
      }
      operand := Some(v.value);
      r := UnaryOp(e.operator, v.value, parse);
    }

    /**
     * `visitAssign`: evaluate, then store into the globals (an unbound name is
     * reported) or at the recorded depth. The result is the assigned value.
     * `value` is the value evaluated; a pure right-hand side's is its PureValue.
     */
    method VisitAssign(e: Expr, fuel: nat) returns (r: Result<Value, Abort>, ghost value: Option<Value>)
      requires Valid() && e.Assign?
      modifies this`environment, this`output, this`clockCalls, heap
      ensures Valid() && environment == old(environment) && Grows(old(heap.State()), heap.State())
      ensures r.Ok? ==> ValueIn(heap.State(), r.value)
      ensures r.Ok? ==> value == Some(r.value)
      ensures r.Ok? && e.id !in locals ==> Fetch(heap.frames, 0, e.name.lexeme) == Some(r.value)
      ensures r.Ok? && e.id in locals ==>
        var a := Ancestor(heap.frames, environment, locals[e.id]);
        a.Some? && Fetch(heap.frames, a.value, e.name.lexeme) == Some(r.value)
      ensures value.Some? && e.id !in locals && r.Err? ==> r.error == Error(EvalError(e.name, "Undefined name " + e.name.lexeme))
      ensures value.Some? && Pure(e.value) ==> old(PureValue(Now(), e.value)) == Ok(value.value)
      ensures Pure(e.value) && old(PureValue(Now(), e.value)).Err? ==> r == old(PureValue(Now(), e.value)) && Quiet()
      ensures Pure(e.value) && old(PureValue(Now(), e.value)).Ok? && e.id !in locals ==>
        (r.Ok? <==> old(Fetch(heap.frames, 0, e.name.lexeme)).Some?)
      ensures (Pure(e.value) && old(PureValue(Now(), e.value)).Ok? && e.id in locals &&
               old(Distance(heap.frames, environment, e.name.lexeme)) == Some(locals[e.id])) ==>
        r == old(PureValue(Now(), e.value)) && Fetch(heap.frames, environment, e.name.lexeme) == Some(r.value)
      decreases fuel, ExprSize(e), 1
    {
      value := None;
      var v := Evaluate(e.value, fuel);
      if v.Err? {
        return v, value;
      }
      value := Some(v.value);
      r := StoreVariable(e.id, e.name, v.value);
    }

    /** The store half of `visitAssign`: into the globals without a recorded depth, else at that depth. */
    method StoreVariable(id: nat, name: Token, v: Value) returns (r: Result<Value, Abort>)
      requires Valid() && ValueIn(heap.State(), v)
      modifies heap`frames
      ensures Valid() && Grows(old(heap.State()), heap.State())
      ensures r.Ok? ==> r.value == v
      ensures r.Ok? && id !in locals ==> Fetch(heap.frames, 0, name.lexeme) == Some(v)
      ensures r.Ok? && id in locals ==>
        var a := Ancestor(heap.frames, environment, locals[id]);
        a.Some? && Fetch(heap.frames, a.value, name.lexeme) == Some(v)
      ensures id !in locals && r.Err? ==> r.error == Error(EvalError(name, "Undefined name " + name.lexeme))
      ensures id !in locals ==> (r.Ok? <==> old(Fetch(heap.frames, 0, name.lexeme)).Some?)
      ensures id in locals && old(Distance(heap.frames, environment, name.lexeme)) == Some(locals[id]) ==>
        r == Ok(v) && Fetch(heap.frames, environment, name.lexeme) == Some(v)
    {
      ghost var before := heap.frames;
      if id !in locals {
        var found := heap.Store(0, name.lexeme, v);
        FetchAfterAssign(before, 0, name.lexeme, v);
        if found {
          r := Ok(v);
        } else {
          r := Err(Error(EvalError(name, "Undefined name " + name.lexeme)));
        }
      } else {
        var stored := heap.AssignAt(environment, locals[id], name.lexeme, v);
        match stored {
          case Err(msg) =>
            r := Err(Crash("AttributeError: " + msg));
          case Ok(found) =>
            if found {
              var a := Ancestor(before, environment, locals[id]).value;
              FetchAfterAssign(before, a, name.lexeme, v);
              AncestorStable(before, heap.frames, environment, locals[id]);
              if Distance(before, environment, name.lexeme) == Some(locals[id]) {
                FetchAfterDefineAtDistance(before, environment, locals[id], name.lexeme, v);
              }
              r := Ok(v);
            } else {
              r := Err(Crash("NameError: " + name.lexeme));
            }
        }
      }
    }

    /**
     * `visitCall`: the callee must be a function, class or clock (checked
     * before the arguments are evaluated), the arguments are evaluated left
     * to right and their number must equal the callee's arity. `callee` and
     * `args` are the values evaluated; pure ones are their PureValues.
     * `before` is the heap once the arguments are evaluated, and `outcome`
     * and `entry` are those of the call, as in CallWithArguments.
     */
    method VisitCall(e: Expr, fuel: nat)
      returns (r: Result<Value, Abort>, ghost callee: Option<Value>, ghost args: seq<Value>,
               ghost before: HeapState, ghost outcome: Outcome, ghost entry: HeapState)
      requires Valid() && e.Call?
      modifies this`environment, this`output, this`clockCalls, heap
      ensures Valid() && environment == old(environment) && Grows(old(heap.State()), heap.State())
      ensures r.Ok? ==> ValueIn(heap.State(), r.value)
      ensures callee.Some? ==> ValueIn(heap.State(), callee.value)
      ensures callee.Some? && !(callee.value.FunRef? || callee.value.ClassRef? || callee.value.Clock?) ==>
        r == Err(Error(EvalError(e.paren, "Only functions and classes can be called.")))
      ensures r.Ok? ==> callee.Some? && |args| == |e.arguments|
      ensures r.Ok? ==> Arity(heap.State(), callee.value) == Some(|args|)
      ensures callee.Some? && Pure(e.callee) ==> old(PureValue(Now(), e.callee)) == Ok(callee.value)
      ensures Pure(e.callee) && old(PureValue(Now(), e.callee)).Err? ==> r == old(PureValue(Now(), e.callee)) && Quiet()
      ensures Pure(e.callee) && AllPure(e.arguments) && callee.Some? && |args| == |e.arguments| ==>
        old(PureValues(Now(), e.arguments)) == Ok(args)
      ensures (callee.Some? && (callee.value.FunRef? || callee.value.ClassRef? || callee.value.Clock?) &&
               |args| == |e.arguments| && Arity(heap.State(), callee.value) != Some(|args|)) ==>
        r == Err(Error(EvalError(e.paren, "Expected " + NatText(Arity(heap.State(), callee.value).value) + " arguments but got " + NatText(|args|) + ".")))
      ensures Wf(before) && Grows(old(heap.State()), before) && Grows(before, heap.State())
      ensures Pure(e.callee) && AllPure(e.arguments) ==> before == old(heap.State())
      ensures callee.Some? ==> ValueIn(before, callee.value)
      ensures callee.Some? && |args| == |e.arguments| && Arity(before, callee.value) == Some(|args|) ==>
        && (callee.value.FunRef? ==> FunctionCall(before, heap.State(), callee.value.f, args, fuel, locals, parse, r, outcome, entry))
        && (callee.value.ClassRef? ==> ClassCall(before, heap.State(), callee.value.c, args, fuel, r, entry))
      ensures old(ClockCall(Now(), e)) ==> ClockRead(r)
      decreases fuel, ExprSize(e), 1
    {
      callee, args := None, [];
      before, outcome, entry := heap.State(), Normal, heap.State();
      ghost var hs := heap.State();
      var c := Evaluate(e.callee, fuel);
      before, entry := heap.State(), heap.State();
      if c.Err? {
        return c, callee, args, before, outcome, entry;
      }
      callee := Some(c.value);
      if !(c.value.FunRef? || c.value.ClassRef? || c.value.Clock?) {
        return Err(Error(EvalError(e.paren, "Only functions and classes can be called."))), callee, args, before, outcome, entry;
      }
      ghost var h0 := heap.State();
      r, args, before, outcome, entry := CallWithArguments(c.value, e.arguments, e.paren, fuel);
      GrowsTransitive(hs, h0, before);
      GrowsTransitive(hs, h0, heap.State());
      ValueInGrows(h0, heap.State(), c.value);
      ArityStable(h0, heap.State(), c.value);
    }

    /**
     * The rest of `visitCall` once the callee is known to be callable:
     * evaluate the arguments, check the arity, call. `args` is the argument
     * values when all of them were evaluated, else empty; `before` is the heap
     * once they are, and `outcome` and `entry` are those of the call.
     */
    method CallWithArguments(callee: Value, arguments: seq<Expr>, paren: Token, fuel: nat)
      returns (r: Result<Value, Abort>, ghost args: seq<Value>, ghost before: HeapState, ghost outcome: Outcome, ghost entry: HeapState)
      requires Valid() && ValueIn(heap.State(), callee) && (callee.FunRef? || callee.ClassRef? || callee.Clock?)
      modifies this`environment, this`output, this`clockCalls, heap
      ensures Valid() && environment == old(environment) && Grows(old(heap.State()), heap.State())
      ensures r.Ok? ==> ValueIn(heap.State(), r.value)
      ensures r.Ok? ==> |args| == |arguments| && Arity(heap.State(), callee) == Some(|args|)
      ensures AllPure(arguments) ==> (old(PureValues(Now(), arguments)).Ok? <==> |args| == |arguments|)
      ensures AllPure(arguments) && |args| == |arguments| ==> old(PureValues(Now(), arguments)) == Ok(args)
      ensures AllPure(arguments) && old(PureValues(Now(), arguments)).Err? ==>
        r == Err(old(PureValues(Now(), arguments)).error) && Quiet()
      ensures |args| == |arguments| && Arity(old(heap.State()), callee) != Some(|arguments|) ==>
        r == Err(Error(EvalError(paren, "Expected " + NatText(Arity(old(heap.State()), callee).value) + " arguments but got " + NatText(|arguments|) + ".")))
      ensures Wf(before) && Grows(old(heap.State()), before) && Grows(before, heap.State()) && ValueIn(before, callee)
      ensures AllPure(arguments) ==> before == old(heap.State())
      ensures |args| == |arguments| && Arity(before, callee) == Some(|args|) ==>
        && (callee.FunRef? ==> FunctionCall(before, heap.State(), callee.f, args, fuel, locals, parse, r, outcome, entry))
        && (callee.ClassRef? ==> ClassCall(before, heap.State(), callee.c, args, fuel, r, entry))
      ensures callee.Clock? && arguments == [] ==> ClockRead(r)
      decreases fuel, ExprsSize(arguments) + 1, 0
    {
      args := [];
      ghost var h0 := heap.State();
      var evaluated := EvaluateArguments(arguments, fuel);
      before, outcome, entry := heap.State(), Normal, heap.State();
      ValueInGrows(h0, before, callee);
      if evaluated.Err? {
        if |arguments| == 0 {
          assert false;
        }
        return Err(evaluated.error), args, before, outcome, entry;
      }
      var values := evaluated.value;
      args := values;
      ArityStable(h0, before, callee);
      var arity := Arity(heap.State(), callee);
      if arity != Some(|values|) {
        r := Err(Error(EvalError(paren, "Expected " + NatText(arity.value) + " arguments but got " + NatText(|values|) + ".")));
        return;
      }
      r, outcome, entry := CallValue(callee, values, paren, fuel);
      ArityStable(before, heap.State(), callee);
    }

    /** The arguments of a call, left to right, stopping at the first that fails. */
    method EvaluateArguments(arguments: seq<Expr>, fuel: nat) returns (r: Result<seq<Value>, Abort>)
      requires Valid()
      modifies this`environment, this`output, this`clockCalls, heap
      ensures Valid() && environment == old(environment) && Grows(old(heap.State()), heap.State())
      ensures r.Ok? ==> |r.value| == |arguments| && forall j :: 0 <= j < |arguments| ==> ValueIn(heap.State(), r.value[j])
      ensures |arguments| == 0 ==> r == Ok([])
      ensures AllPure(arguments) ==> r == old(PureValues(Now(), arguments)) && Quiet()
      decreases fuel, ExprsSize(arguments), 3
    {
      ghost var sn := Now();
      var values: seq<Value> := [];
      for i := 0 to |arguments|
        invariant |values| == i
        invariant Valid() && environment == old(environment) && Grows(old(heap.State()), heap.State())
        invariant forall j :: 0 <= j < i ==> ValueIn(heap.State(), values[j])
        invariant AllPure(arguments) ==> Quiet() && Now() == sn
        invariant AllPure(arguments) ==> AllPure(arguments[..i]) && PureValues(sn, arguments[..i]) == Ok(values)
      {
        ExprsSizeElement(arguments, i);
        var a := Evaluate(arguments[i], fuel);
        if a.Err? {
          if AllPure(arguments) {
            PureValuesFailAt(sn, arguments, i);
          }
          return Err(a.error);
        }
        if AllPure(arguments) {
          PureValuesExtend(sn, arguments, i, values, a.value);
        }
        values := values + [a.value];
      }
      assert arguments[..|arguments|] == arguments;
      r := Ok(values);
    }

    /** Arity never changes: functions and classes are immutable. */
    lemma ArityStable(a: HeapState, b: HeapState, v: Value)
      requires Wf(a) && Wf(b) && Grows(a, b) && ValueIn(a, v)
      ensures Arity(a, v) == Arity(b, v)
    {
      if v.ClassRef? {
        FindMethodStable(a, b, v.c, InitName);
      }
    }

    /**
     * `callee.call(interpreter, args)`: a function call ends as FunctionCall
     * states, a class call as ClassCall states, and `clock` returns the next
     * reading of the clock. `outcome` and `entry` are those of the call.
     */
    method CallValue(callee: Value, args: seq<Value>, paren: Token, fuel: nat) returns (r: Result<Value, Abort>, ghost outcome: Outcome, ghost entry: HeapState)
      requires Valid() && ValueIn(heap.State(), callee)
      requires forall j :: 0 <= j < |args| ==> ValueIn(heap.State(), args[j])
      modifies this`environment, this`output, this`clockCalls, heap
      ensures Valid() && environment == old(environment) && Grows(old(heap.State()), heap.State())
      ensures r.Ok? ==> ValueIn(heap.State(), r.value)
      ensures callee.FunRef? ==> FunctionCall(old(heap.State()), heap.State(), callee.f, args, fuel, locals, parse, r, outcome, entry)
      ensures callee.ClassRef? ==> ClassCall(old(heap.State()), heap.State(), callee.c, args, fuel, r, entry)
      ensures callee.Clock? ==> ClockRead(r)
      decreases fuel, 0, 5
    {
      outcome, entry := Normal, heap.State();
      match callee {
        case FunRef(f) =>
          r, outcome, entry := CallFunction(f, args, fuel);
        case ClassRef(c) =>
          r, entry := CallClass(c, args, fuel);
        case Clock =>
          r := Ok(Num(clock(clockCalls)));
          clockCalls := clockCalls + 1;
        case _ =>
          r := Err(Error(EvalError(paren, "Only functions and classes can be called.")));
      }
    }

    /**
     * The start of `LoxFunction.call`: one new environment, enclosed by the
     * closure (not the caller's environment), binding the parameters to the
     * arguments in order.
     */
    method OpenCallFrame(f: nat, args: seq<Value>) returns (env: nat)
      requires Valid() && f < |heap.functions|
      requires forall j :: 0 <= j < |args| ==> ValueIn(heap.State(), args[j])
      modifies heap`frames
      ensures Valid() && Grows(old(heap.State()), heap.State())
      ensures env == |old(heap.frames)|
      ensures heap.frames == old(heap.frames) +
        [Frame(BindParams(map[], heap.functions[f].declaration.params, args), Some(heap.functions[f].closure))]
    {
      var fn := heap.functions[f];
      var params := fn.declaration.params;
      env := heap.NewFrame(fn.closure);
      var n := if |params| < |args| then |params| else |args|;
      for i := 0 to n
        invariant Valid() && env < |heap.frames| && Grows(old(heap.State()), heap.State())
        invariant heap.frames == old(heap.frames) + [Frame(BindParams(map[], params[..i], args[..i]), Some(fn.closure))]
        invariant forall j :: 0 <= j < |args| ==> ValueIn(heap.State(), args[j])
      {
        BindParamsExtend(params, args, i);
        heap.Define(env, params[i].lexeme, args[i]);
      }
      BindParamsPrefix(params, args, n);
    }

    /**
     * `LoxFunction.call`: the body runs as a block in the environment
     * OpenCallFrame makes, and the result is `this` for an initializer, else
     * the returned value or nil, as FunctionCall states. `entry` is the heap
     * the body starts from and `outcome` how the body ended.
     */
    method CallFunction(f: nat, args: seq<Value>, fuel: nat) returns (r: Result<Value, Abort>, ghost outcome: Outcome, ghost entry: HeapState)
      requires Valid() && f < |heap.functions|
      requires forall j :: 0 <= j < |args| ==> ValueIn(heap.State(), args[j])
      modifies this`environment, this`output, this`clockCalls, heap
      ensures Valid() && environment == old(environment) && Grows(old(heap.State()), heap.State())
      ensures r.Ok? ==> ValueIn(heap.State(), r.value)
      ensures FunctionCall(old(heap.State()), heap.State(), f, args, fuel, locals, parse, r, outcome, entry)
      ensures outcome.ReturnSignal? && !heap.functions[f].isInitializer ==> r == Ok(outcome.value)
      ensures !outcome.ReturnSignal? && !outcome.Abrupt? && !heap.functions[f].isInitializer ==> r == Ok(Nil)
      ensures fuel == 0 ==> Quiet()
      decreases fuel, 0, 3
    {
      entry := heap.State();
      if fuel == 0 {
        return Err(OutOfFuel), Abrupt(OutOfFuel), entry;
      }
      var fn := heap.functions[f];
      var env := OpenCallFrame(f, args);
      entry := heap.State();
      var body := ExecuteBlock(fn.declaration.body, env, fuel - 1);
      outcome := body;
      if body.Abrupt? {
        r := Err(body.abort);
      } else {
        FetchInHeap(heap.State(), heap.functions[f].closure, "this");
        r := Returned(CallResult(heap.State(), f, ReturnedValue(body)));
      }
    }

    /**
     * `LoxClass.call`: a new instance, initialized by `init` when the class
     * chain has one: the method is bound to the new instance (an environment
     * binding `this`) and called with the arguments, as ClassCall states.
     * `entry` is the heap the body of `init` starts from.
     */
    method CallClass(c: nat, args: seq<Value>, fuel: nat) returns (r: Result<Value, Abort>, ghost entry: HeapState)
      requires Valid() && c < |heap.classes|
      requires forall j :: 0 <= j < |args| ==> ValueIn(heap.State(), args[j])
      modifies this`environment, this`output, this`clockCalls, heap
      ensures Valid() && environment == old(environment) && Grows(old(heap.State()), heap.State())
      ensures r.Ok? ==> ValueIn(heap.State(), r.value)
      ensures ClassCall(old(heap.State()), heap.State(), c, args, fuel, r, entry)
      decreases fuel, 0, 4
    {
      entry := heap.State();
      var inst := heap.NewInstance(c);
      var init := FindMethod(heap.State(), c, InitName);
      FindMethodStable(old(heap.State()), heap.State(), c, InitName);
      if init.Some? {
        ghost var fn := heap.functions[init.value];
        assert fn == old(heap.functions[FindMethod(heap.State(), c, InitName).value]);
        var g := heap.Bind(init.value, InstanceRef(inst));
        assert heap.functions == old(heap.functions) + [FunctionObj(fn.declaration, |old(heap.frames)|, fn.isInitializer)];
        assert heap.frames == old(heap.frames) + [Frame(map["this" := InstanceRef(|old(heap.instances)|)], Some(fn.closure))];
        assert heap.instances == old(heap.instances) + [InstanceObj(c, map[])];
        var result;
        ghost var outcome;
        result, outcome, entry := CallFunction(g, args, fuel);
        if result.Err? {
          return Err(result.error), entry;
        }
      }
      r := Ok(InstanceRef(inst));
    }

    /**
     * `visitGet`: only instances have properties; a field, else a method bound
     * to the instance. `target` is the object's value; a pure object
     * expression's is its PureValue.
     */
    method VisitGet(e: Expr, fuel: nat) returns (r: Result<Value, Abort>, ghost target: Option<Value>)
      requires Valid() && e.Get?
      modifies this`environment, this`output, this`clockCalls, heap
      ensures Valid() && environment == old(environment) && Grows(old(heap.State()), heap.State())
      ensures r.Ok? ==> ValueIn(heap.State(), r.value)
      ensures target.Some? && !target.value.InstanceRef? ==> r == Err(Error(EvalError(e.name, "Only instances have properties")))
      ensures r.Ok? ==> target.Some? && target.value.InstanceRef?
      ensures target.Some? && target.value.InstanceRef? && r.Err? ==>
        r == Err(Error(EvalError(e.name, "Undefined property '" + e.name.lexeme + "'.")))
      ensures target.Some? && Pure(e.obj) ==> old(PureValue(Now(), e.obj)) == Ok(target.value)
      ensures Pure(e.obj) && old(PureValue(Now(), e.obj)).Err? ==> r == old(PureValue(Now(), e.obj)) && Quiet()
      ensures target.Some? && target.value.InstanceRef? ==>
        target.value.i < |heap.instances| &&
        match PropertyOf(heap.State(), target.value.i, e.name.lexeme)
        case FieldValue(v) => r == Ok(v)
        case MethodToBind(f) =>
          && r == Ok(FunRef(|heap.functions| - 1))
          && heap.functions[|heap.functions| - 1] == FunctionObj(heap.functions[f].declaration, |heap.frames| - 1, heap.functions[f].isInitializer)
          && heap.frames[|heap.frames| - 1] == Frame(map["this" := target.value], Some(heap.functions[f].closure))
        case NoProperty => r.Err?
      decreases fuel, ExprSize(e), 1
    {
      target := None;
      var o := Evaluate(e.obj, fuel);
      if o.Err? {
        return o, target;
      }
      target := Some(o.value);
      if !o.value.InstanceRef? {
        return Err(Error(EvalError(e.name, "Only instances have properties"))), target;
      }
      ghost var h0 := heap.State();
      match PropertyOf(heap.State(), o.value.i, e.name.lexeme) {
        case FieldValue(v) =>
          assert ValuesIn(heap.State(), heap.instances[o.value.i].fields);
          r := Ok(v);
        case MethodToBind(f) =>
          var g := heap.Bind(f, o.value);
          FindMethodStable(h0, heap.State(), heap.instances[o.value.i].klass, e.name.lexeme);
          r := Ok(FunRef(g));
        case NoProperty =>
          r := Err(Error(EvalError(e.name, "Undefined property '" + e.name.lexeme + "'.")));
      }
    }

    /**
     * `visitSet`: the object must be an instance (checked before the value is
     * evaluated); the result is the value stored. `target` is the object's
     * value; a pure object expression's is its PureValue.
     */
    method VisitSet(e: Expr, fuel: nat) returns (r: Result<Value, Abort>, ghost target: Option<Value>)
      requires Valid() && e.Set?
      modifies this`environment, this`output, this`clockCalls, heap
      ensures Valid() && environment == old(environment) && Grows(old(heap.State()), heap.State())
      ensures r.Ok? ==> ValueIn(heap.State(), r.value)
      ensures target.Some? && !target.value.InstanceRef? ==> r == Err(Error(EvalError(e.name, "Only instances may have fields")))
      ensures r.Ok? ==>
        (target.Some? && target.value.InstanceRef? && ValueIn(heap.State(), target.value) &&
         PropertyOf(heap.State(), target.value.i, e.name.lexeme) == FieldValue(r.value))
      ensures target.Some? && Pure(e.obj) ==> old(PureValue(Now(), e.obj)) == Ok(target.value)
      ensures Pure(e.obj) && old(PureValue(Now(), e.obj)).Err? ==> r == old(PureValue(Now(), e.obj)) && Quiet()
      ensures Pure(e.obj) && Pure(e.value) && target.Some? && target.value.InstanceRef? ==>
        && r == old(PureValue(Now(), e.value))
        && output == old(output) && clockCalls == old(clockCalls)
        && heap.State() == (if r.Ok? then WithField(old(heap.State()), target.value.i, e.name.lexeme, r.value) else old(heap.State()))
      decreases fuel, ExprSize(e), 1
    {
      target := None;
      var o := Evaluate(e.obj, fuel);
      if o.Err? {
        return o, target;
      }
      target := Some(o.value);
      if !o.value.InstanceRef? {
        return Err(Error(EvalError(e.name, "Only instances may have fields"))), target;
      }
      ghost var h0 := heap.State();
      r := SetProperty(o.value.i, e.name.lexeme, e.value, fuel);
      GrowsTransitive(old(heap.State()), h0, heap.State());
    }

    /** The rest of `visitSet` once the object is an instance: evaluate the value, then set the field. */
    method SetProperty(i: nat, name: string, value: Expr, fuel: nat) returns (r: Result<Value, Abort>)
      requires Valid() && i < |heap.instances|
      modifies this`environment, this`output, this`clockCalls, heap
      ensures Valid() && environment == old(environment) && Grows(old(heap.State()), heap.State())
      ensures r.Ok? ==> ValueIn(heap.State(), r.value)
      ensures r.Ok? ==> i < |heap.instances| && PropertyOf(heap.State(), i, name) == FieldValue(r.value)
      ensures Pure(value) ==>
        && r == old(PureValue(Now(), value))
        && output == old(output) && clockCalls == old(clockCalls)
        && heap.State() == (if r.Ok? then WithField(old(heap.State()), i, name, r.value) else old(heap.State()))
      decreases fuel, ExprSize(value) + 1, 0
    {
      var v := Evaluate(value, fuel);
      if v.Err? {
        return v;
      }
      ghost var hs := heap.State();
      heap.SetField(i, name, v.value);
      SetThenGet(hs, i, name, v.value);
      r := Ok(v.value);
    }

    /**
     * `visitSuper`: the depth recorded for the node locates `super`, one
     * environment nearer lies `this`, and the method found from the
     * superclass is bound to it. Without a recorded depth the lookup raises.
     * A failed lookup is the result with nothing changed; a found method is
     * bound as `Heap.Bind` binds it, to the value of `this`.
     */
    method VisitSuper(e: Expr) returns (r: Result<Value, Abort>)
      requires Valid() && e.Super?
      modifies heap
      ensures Valid() && Grows(old(heap.State()), heap.State())
      ensures r.Ok? ==> ValueIn(heap.State(), r.value)
      ensures e.id !in locals ==> r.Err? && r.error.Crash? && heap.State() == old(heap.State())
      ensures e.id in locals ==>
        var depth := locals[e.id];
        var superclass := old(LookUpAt(heap.State(), environment, SuperName(e.keyword.line), depth));
        var that := old(LookUpAt(heap.State(), environment, ThisName(e.keyword.line), if depth == 0 then 0 else depth - 1));
        && (superclass.Err? ==> r == superclass && heap.State() == old(heap.State()))
        && (superclass.Ok? && that.Err? ==> r == that && heap.State() == old(heap.State()))
        && (superclass.Ok? && that.Ok? && !superclass.value.ClassRef? ==>
              r == Err(Crash("AttributeError: findMethod")) && heap.State() == old(heap.State()))
        && (superclass.Ok? && that.Ok? && superclass.value.ClassRef? ==>
              superclass.value.c < |old(heap.classes)| &&
              match old(FindMethod(heap.State(), superclass.value.c, e.methodName.lexeme))
              case None =>
                r == Err(Error(EvalError(e.methodName, "Undefined property '" + e.methodName.lexeme + "'."))) &&
                heap.State() == old(heap.State())
              case Some(f) =>
                && r == Ok(FunRef(|old(heap.functions)|))
                && heap.functions == old(heap.functions) + [FunctionObj(old(heap.functions[f]).declaration, |old(heap.frames)|, old(heap.functions[f]).isInitializer)]
                && heap.frames == old(heap.frames) + [Frame(map["this" := that.value], Some(old(heap.functions[f]).closure))]
                && heap.classes == old(heap.classes) && heap.instances == old(heap.instances))
    {
      if e.id !in locals {
        return Err(Crash("KeyError"));
      }
      var depth := locals[e.id];
      var superclass := LookUpAt(heap.State(), environment, SuperName(e.keyword.line), depth);
      if superclass.Err? {
        return superclass;
      }
      var that := LookUpAt(heap.State(), environment, ThisName(e.keyword.line), if depth == 0 then 0 else depth - 1);
      if that.Err? {
        return that;
      }
      if !superclass.value.ClassRef? {
        return Err(Crash("AttributeError: findMethod"));
      }
      match FindMethod(heap.State(), superclass.value.c, e.methodName.lexeme) {
        case Some(f) =>
          var g := heap.Bind(f, that.value);
          r := Ok(FunRef(g));
        case None =>
          r := Err(Error(EvalError(e.methodName, "Undefined property '" + e.methodName.lexeme + "'.")));
      }
    }

    method Execute(s: Stmt, fuel: nat) returns (o: Outcome)
      requires Valid()
      modifies this`environment, this`output, this`clockCalls, heap
      ensures Valid() && environment == old(environment) && Grows(old(heap.State()), heap.State())
      ensures o.ReturnSignal? ==> ValueIn(heap.State(), o.value)
      ensures o.BreakSignal? ==> FreeBreak(s)
      ensures s.Block? && |s.statements| > 0 && s.statements[0].Break? ==>
        o == BreakSignal && output == old(output) && clockCalls == old(clockCalls)
      ensures old(Immediate(Now(), s)).Some? ==> o == old(Immediate(Now(), s)).value && Quiet()
      ensures old(QuietNormal(Now(), s)) ==> o == Normal && Quiet()
      ensures (s.Expression? || s.Print? || s.Var? || s.Function? || s.Class?) ==> o.Normal? || o.Abrupt?
      ensures s.Var? && o.Normal? ==> s.name.lexeme in heap.frames[environment].values
      ensures (s.Var? && old(VarValue(Now(), s)).Some?) || s.Function? ==>
        output == old(output) && clockCalls == old(clockCalls) && Declares(old(Now()), s, o, heap.State())
      decreases fuel, StmtSize(s), 3
    {
      match s
      case Expression(_) =>
        o := ExecuteExpression(s, fuel);
      case Print(_) =>
        ghost var printed;
        o, printed := ExecutePrint(s, fuel);
      case Var(_, _) =>
        o := ExecuteDeclaration(s, fuel);
      case Block(_) =>
        o := VisitBlock(s, fuel);
      case If(_, _, _) =>
        o := ExecuteIf(s, fuel);
      case While(_, _) =>
        ghost var passes;
        o, passes := ExecuteWhile(s, fuel);
      case Function(_) =>
        o := ExecuteDeclaration(s, fuel);
      case Class(_, _, _) =>
        o := ExecuteDeclaration(s, fuel);
      case Return(_, _) =>
        o := ExecuteReturn(s, fuel);
      case Break(_) =>
        o := BreakSignal;
    }

    /** A declaration (`var`, `fun` or `class`): what `visitVar`, `visitFunction` and `visitClass` do. */
    method ExecuteDeclaration(s: Stmt, fuel: nat) returns (o: Outcome)
      requires Valid() && (s.Var? || s.Function? || s.Class?)
      modifies this`environment, this`output, this`clockCalls, heap
      ensures Valid() && environment == old(environment) && Grows(old(heap.State()), heap.State())
      ensures o.Normal? || o.Abrupt?
      ensures s.Var? && o.Normal? ==> s.name.lexeme in heap.frames[environment].values
      ensures (s.Var? && old(VarValue(Now(), s)).Some?) || s.Function? ==>
        output == old(output) && clockCalls == old(clockCalls) && Declares(old(Now()), s, o, heap.State())
      decreases fuel, StmtSize(s), 2
    {
      if s.Var? {
        ghost var bound;
        o, bound := ExecuteVar(s, fuel);
      } else if s.Function? {
        o := ExecuteFunction(s);
      } else {
        o := ExecuteClass(s, fuel);
      }
    }

    /** `visitExpression`: evaluate and discard the value. */
    method ExecuteExpression(s: Stmt, fuel: nat) returns (o: Outcome)
      requires Valid() && s.Expression?
      modifies this`environment, this`output, this`clockCalls, heap
      ensures Valid() && environment == old(environment) && Grows(old(heap.State()), heap.State())
      ensures o.Normal? || o.Abrupt?
      ensures Pure(s.expression) ==>
        Quiet() && o == (if old(PureValue(Now(), s.expression)).Ok? then Normal else Abrupt(old(PureValue(Now(), s.expression)).error))
      ensures old(Immediate(Now(), s)).Some? ==> o == old(Immediate(Now(), s)).value && Quiet()
      ensures old(QuietNormal(Now(), s)) ==> o == Normal && Quiet()
      decreases fuel, StmtSize(s), 1
    {
      var r := Evaluate(s.expression, fuel);
      o := if r.Ok? then Normal else Abrupt(r.error);
    }

    /** `visitBlock`: the statements run in a new environment enclosed by the current one. */
    method VisitBlock(s: Stmt, fuel: nat) returns (o: Outcome)
      requires Valid() && s.Block?
      modifies this`environment, this`output, this`clockCalls, heap
      ensures Valid() && environment == old(environment) && Grows(old(heap.State()), heap.State())
      ensures o.ReturnSignal? ==> ValueIn(heap.State(), o.value)
      ensures o.BreakSignal? ==> FreeBreak(s)
      ensures |s.statements| > 0 && s.statements[0].Break? ==>
        o == BreakSignal && output == old(output) && clockCalls == old(clockCalls)
      decreases fuel, StmtSize(s), 1
    {
      var context := heap.NewFrame(environment);
      o := ExecuteBlock(s.statements, context, fuel);
    }

    /** `visitFunction`: bind the name, in the current environment, to a function closing over it. */
    method ExecuteFunction(s: Stmt) returns (o: Outcome)
      requires Valid() && s.Function?
      modifies heap
      ensures Valid() && Grows(old(heap.State()), heap.State())
      ensures o.Normal? && s.decl.name.lexeme in heap.frames[environment].values
      ensures var v := heap.frames[environment].values[s.decl.name.lexeme];
        v.FunRef? && v.f < |heap.functions| && heap.functions[v.f] == FunctionObj(s.decl, environment, false)
      ensures heap.State() == old(heap.State()).(
        frames := Defined(old(heap.frames), environment, s.decl.name.lexeme, FunRef(|old(heap.functions)|)),
        functions := old(heap.functions) + [FunctionObj(s.decl, environment, false)])
    {
      var f := heap.NewFunction(s.decl, environment, false);
      heap.Define(environment, s.decl.name.lexeme, FunRef(f));
      o := Normal;
    }

    /**
     * `visitPrint`: the value's text, without a trailing ".0", is appended to
     * the output. `v` is the value printed; a pure expression's is its PureValue.
     */
    method ExecutePrint(s: Stmt, fuel: nat) returns (o: Outcome, ghost v: Value)
      requires Valid() && s.Print?
      modifies this`environment, this`output, this`clockCalls, heap
      ensures Valid() && environment == old(environment) && Grows(old(heap.State()), heap.State())
      ensures o.Normal? || o.Abrupt?
      ensures o.Normal? ==> ValueIn(heap.State(), v) && |output| > 0 && output[|output| - 1] == Printed(Display(heap.State(), v, numText))
      ensures Pure(s.expression) ==>
        && heap.State() == old(heap.State()) && clockCalls == old(clockCalls)
        && match old(PureValue(Now(), s.expression))
           case Ok(value) => o == Normal && v == value && output == old(output) + [Printed(Display(heap.State(), value, numText))]
           case Err(a) => o == Abrupt(a) && output == old(output)
      ensures old(Immediate(Now(), s)).Some? ==> o == old(Immediate(Now(), s)).value && Quiet()
      decreases fuel, StmtSize(s), 1
    {
      v := Nil;
      var r := Evaluate(s.expression, fuel);
      if r.Err? {
        return Abrupt(r.error), v;
      }
      v := r.value;
      output := output + [Printed(Display(heap.State(), r.value, numText))];
      o := Normal;
    }

    /**
     * `visitVar`: define the name in the current environment, as nil without
     * an initializer. `v` is the value bound; when VarValue knows it, only the
     * current environment changes, or an initializer's error is the outcome
     * with nothing changed.
     */
    method ExecuteVar(s: Stmt, fuel: nat) returns (o: Outcome, ghost v: Value)
      requires Valid() && s.Var?
      modifies this`environment, this`output, this`clockCalls, heap
      ensures Valid() && environment == old(environment) && Grows(old(heap.State()), heap.State())
      ensures o.Normal? || o.Abrupt?
      ensures o.Normal? ==> s.name.lexeme in heap.frames[environment].values && heap.frames[environment].values[s.name.lexeme] == v
      ensures s.initializer.None? ==> o.Normal? && heap.frames[environment].values[s.name.lexeme] == Nil
      ensures old(VarValue(Now(), s)).Some? ==>
        match old(VarValue(Now(), s)).value
        case Ok(x) =>
          && o == Normal && v == x && output == old(output) && clockCalls == old(clockCalls)
          && heap.State() == old(heap.State()).(frames := Defined(old(heap.frames), environment, s.name.lexeme, x))
        case Err(a) => o == Abrupt(a) && Quiet()
      decreases fuel, StmtSize(s), 1
    {
      var value := Nil;
      if s.initializer.Some? {
        var r := Evaluate(s.initializer.value, fuel);
        if r.Err? {
          return Abrupt(r.error), value;
        }
        value := r.value;
      }
      heap.Define(environment, s.name.lexeme, value);
      o, v := Normal, value;
    }

    /** `visitIf`: the then branch when the condition is truthy, else the else branch if there is one. */
    method ExecuteIf(s: Stmt, fuel: nat) returns (o: Outcome)
      requires Valid() && s.If?
      modifies this`environment, this`output, this`clockCalls, heap
      ensures Valid() && environment == old(environment) && Grows(old(heap.State()), heap.State())
      ensures o.ReturnSignal? ==> ValueIn(heap.State(), o.value)
      ensures o.BreakSignal? ==> FreeBreak(s)
      ensures s.elseBranch.None? && o.BreakSignal? ==> FreeBreak(s.thenBranch)
      ensures Pure(s.condition) ==>
        match old(PureValue(Now(), s.condition))
        case Err(a) => o == Abrupt(a) && Quiet()
        case Ok(c) =>
          var taken := if IsTruthy(c) then Some(s.thenBranch) else s.elseBranch;
          && (taken.None? ==> o == Normal && Quiet())
          && (taken.Some? && old(Immediate(Now(), taken.value)).Some? ==> o == old(Immediate(Now(), taken.value)).value && Quiet())
          && (taken.Some? && old(QuietNormal(Now(), taken.value)) ==> o == Normal && Quiet())
      decreases fuel, StmtSize(s), 1
    {
      var c := Evaluate(s.condition, fuel);
      if c.Err? {
        return Abrupt(c.error);
      }
      if IsTruthy(c.value) {
        o := Execute(s.thenBranch, fuel);
      } else if s.elseBranch.Some? {
        o := Execute(s.elseBranch.value, fuel);
      } else {
        o := Normal;
      }
    }

    /** `visitReturn`: the value (nil when absent) travels out as the ReturnUnwinder. */
    method ExecuteReturn(s: Stmt, fuel: nat) returns (o: Outcome)
      requires Valid() && s.Return?
      modifies this`environment, this`output, this`clockCalls, heap
      ensures Valid() && environment == old(environment) && Grows(old(heap.State()), heap.State())
      ensures o.ReturnSignal? || o.Abrupt?
      ensures o.ReturnSignal? ==> ValueIn(heap.State(), o.value)
      ensures s.value.None? ==> o == ReturnSignal(Nil) && Quiet()
      ensures s.value.Some? && Pure(s.value.value) ==> o == ReturnOf(old(PureValue(Now(), s.value.value))) && Quiet()
      ensures old(Immediate(Now(), s)).Some? ==> o == old(Immediate(Now(), s)).value && Quiet()
      decreases fuel, StmtSize(s), 1
    {
      var v := Nil;
      if s.value.Some? {
        var r := Evaluate(s.value.value, fuel);
        if r.Err? {
          return Abrupt(r.error);
        }
        v := r.value;
      }
      o := ReturnSignal(v);
    }

    /**
     * `execute_block`: run the statements in the given environment, stopping
     * at the first that does not complete normally, and restore the previous
     * environment on every path.
     */
    method ExecuteBlock(statements: seq<Stmt>, context: nat, fuel: nat) returns (o: Outcome)
      requires Valid() && context < |heap.frames|
      modifies this`environment, this`output, this`clockCalls, heap
      ensures Valid() && environment == old(environment) && Grows(old(heap.State()), heap.State())
      ensures o.ReturnSignal? ==> ValueIn(heap.State(), o.value)
      ensures o.BreakSignal? ==> exists i :: 0 <= i < |statements| && FreeBreak(statements[i])
      ensures |statements| == 0 ==> o == Normal && Quiet()
      ensures |statements| > 0 && statements[0].Break? ==> o == BreakSignal && Quiet()
      ensures old(FirstAbrupt(NowIn(context), statements)).Some? ==> o == old(FirstAbrupt(NowIn(context), statements)).value && Quiet()
      decreases fuel, StmtsSize(statements), 4
    {
      ghost var sn := NowIn(context);
      var saved := environment;
      environment := context;
      o := Normal;
      for i := 0 to |statements|
        invariant Valid() && environment == context && Grows(old(heap.State()), heap.State())
        invariant saved < |heap.frames|
        invariant o == Normal
        invariant i > 0 ==> !statements[0].Break?
        invariant i == 0 ==> Quiet()
        invariant FirstAbrupt(sn, statements).Some? ==>
          FirstAbrupt(sn, statements[i..]) == FirstAbrupt(sn, statements) && Quiet()
      {
        StmtsSizeElement(statements, i);
        assert statements[i..][0] == statements[i] && statements[i..][1..] == statements[i + 1..];
        ghost var tracked := FirstAbrupt(sn, statements).Some?;
        assert tracked ==> Now() == sn;
        o := Execute(statements[i], fuel);
        if o != Normal {
          assert o.BreakSignal? ==> FreeBreak(statements[i]);
          environment := saved;
          return;
        }
        assert tracked ==> QuietNormal(sn, statements[i]);
      }
      environment := saved;
    }

    /**
     * `visitWhile`: evaluate the condition before each iteration and stop when
     * it is falsy; a `break` in the body ends this loop only, even from inside
     * a block, and the condition is not evaluated again. `passes` counts the
     * passes, each of which evaluates the condition once.
     */
    method ExecuteWhile(s: Stmt, fuel: nat) returns (o: Outcome, ghost passes: nat)
      requires Valid() && s.While?
      modifies this`environment, this`output, this`clockCalls, heap
      ensures Valid() && environment == old(environment) && Grows(old(heap.State()), heap.State())
      ensures o.ReturnSignal? ==> ValueIn(heap.State(), o.value)
      ensures !o.BreakSignal?
      ensures fuel == 0 ==> o == Abrupt(OutOfFuel)
      ensures fuel > 0 && Pure(s.condition) && old(PureValue(Now(), s.condition)).Err? ==>
        o == Abrupt(old(PureValue(Now(), s.condition)).error) && Quiet()
      ensures fuel > 0 && Pure(s.condition) && old(PureValue(Now(), s.condition)).Ok? && !IsTruthy(old(PureValue(Now(), s.condition)).value) ==>
        o == Normal && Quiet()
      ensures (fuel > 0 && Pure(s.condition) && old(PureValue(Now(), s.condition)).Ok? && IsTruthy(old(PureValue(Now(), s.condition)).value) &&
               s.body.Block? && |s.body.statements| > 0 && s.body.statements[0].Break?) ==>
        o == Normal && output == old(output) && clockCalls == old(clockCalls)
      ensures passes <= fuel
      ensures fuel > 0 && s.body.Break? ==> passes == 1
      ensures fuel > 0 && s.body.Break? && old(ClockCall(Now(), s.condition)) ==> o == Normal && ReadsClockOnce()
      decreases fuel, StmtSize(s), 1
    {
      ghost var sn := Now();
      var f: nat := fuel;
      ghost var first := true;
      passes := 0;
      while true
        invariant f <= fuel && passes == fuel - f
        invariant Valid() && environment == old(environment) && Grows(old(heap.State()), heap.State())
        invariant first ==> f == fuel && Quiet() && Now() == sn
        invariant !first ==> !s.body.Break?
        invariant !first && Pure(s.condition) ==>
          PureValue(sn, s.condition).Ok? && IsTruthy(PureValue(sn, s.condition).value) &&
          !(s.body.Block? && |s.body.statements| > 0 && s.body.statements[0].Break?)
        decreases f
      {
        if f == 0 {
          return Abrupt(OutOfFuel), passes;
        }
        f := f - 1;
        var stop := WhileStep(s, f);
        passes := passes + 1;
        if stop.Some? {
          return stop.value, passes;
        }
        first := false;
      }
    }

    /**
     * One pass of `visitWhile`: evaluate the condition and, when it is truthy,
     * run the body. None means go round again; a `break` from the body ends
     * the loop normally.
     */
    method WhileStep(s: Stmt, fuel: nat) returns (stop: Option<Outcome>)
      requires Valid() && s.While?
      modifies this`environment, this`output, this`clockCalls, heap
      ensures Valid() && environment == old(environment) && Grows(old(heap.State()), heap.State())
      ensures stop.Some? && stop.value.ReturnSignal? ==> ValueIn(heap.State(), stop.value.value)
      ensures stop != Some(BreakSignal)
      ensures Pure(s.condition) && old(PureValue(Now(), s.condition)).Err? ==>
        stop == Some(Abrupt(old(PureValue(Now(), s.condition)).error)) && Quiet()
      ensures Pure(s.condition) && old(PureValue(Now(), s.condition)).Ok? && !IsTruthy(old(PureValue(Now(), s.condition)).value) ==>
        stop == Some(Normal) && Quiet()
      ensures (Pure(s.condition) && old(PureValue(Now(), s.condition)).Ok? && IsTruthy(old(PureValue(Now(), s.condition)).value) &&
               s.body.Block? && |s.body.statements| > 0 && s.body.statements[0].Break?) ==>
        stop == Some(Normal) && output == old(output) && clockCalls == old(clockCalls)
      ensures s.body.Break? ==> stop.Some?
      ensures s.body.Break? && old(ClockCall(Now(), s.condition)) ==> stop == Some(Normal) && ReadsClockOnce()
      decreases fuel, StmtSize(s), 0
    {
      var c := Evaluate(s.condition, fuel);
      if c.Err? {
        return Some(Abrupt(c.error));
      }
      if !IsTruthy(c.value) {
        return Some(Normal);
      }
      var body := Execute(s.body, fuel);
      match body {
        case Normal =>
          stop := None;
        case BreakSignal =>
          stop := Some(Normal);
        case _ =>
          stop := Some(body);
      }
    }

    /**
     * `visitClass`: the superclass must evaluate to a class; the name is
     * defined as nil first, methods close over an environment binding `super`
     * when there is a superclass, and the name is then assigned the class.
     * The superclass is the value of the variable naming it; the heap after a
     * declaration is ClassDeclared of the heap before, and an error leaves it
     * unchanged.
     */
    method ExecuteClass(s: Stmt, fuel: nat) returns (o: Outcome)
      requires Valid() && s.Class?
      modifies this`environment, this`output, this`clockCalls, heap
      ensures Valid() && environment == old(environment) && Grows(old(heap.State()), heap.State())
      ensures o.Normal? || o.Abrupt?
      ensures o.Normal? ==>
        (s.name.lexeme in heap.frames[environment].values &&
         var v := heap.frames[environment].values[s.name.lexeme];
         v.ClassRef? && v.c < |heap.classes| && heap.classes[v.c].name == s.name.lexeme &&
         heap.classes[v.c].methods.Keys == set i | 0 <= i < |s.methods| :: s.methods[i].name.lexeme)
      ensures output == old(output) && clockCalls == old(clockCalls)
      ensures s.superclass.None? ==>
        o == Normal && heap.State() == ClassDeclared(old(heap.State()), environment, s.name.lexeme, s.methods, None)
      ensures s.superclass.Some? ==>
        match old(LookUp(heap.State(), environment, locals, s.superclass.value.name, s.superclass.value.id))
        case Err(a) => o == Abrupt(a) && heap.State() == old(heap.State())
        case Ok(v) =>
          if v.ClassRef? then
            o == Normal && heap.State() == ClassDeclared(old(heap.State()), environment, s.name.lexeme, s.methods, Some(v.c))
          else
            o == Abrupt(Error(EvalError(s.superclass.value.name, "Superclass must be a class."))) && heap.State() == old(heap.State())
      decreases fuel, StmtSize(s), 1
    {
      var superIndex: Option<nat> := None;
      if s.superclass.Some? {
        var sc := s.superclass.value;
        var v := LookUp(heap.State(), environment, locals, sc.name, sc.id);
        if v.Err? {
          return Abrupt(v.error);
        }
        if !v.value.ClassRef? {
          return Abrupt(Error(EvalError(sc.name, "Superclass must be a class.")));
        }
        superIndex := Some(v.value.c);
      }
      var klass := DeclareClass(s.name.lexeme, s.methods, superIndex);
      o := Normal;
    }

    /**
     * The second half of `visitClass`: the name is defined as nil, the
     * methods are made in an environment binding `super` when there is a
     * superclass, and the name is then assigned the new class. The heap
     * afterwards is ClassDeclared of the heap before: nothing else changes.
     */
    method DeclareClass(name: string, decls: seq<FunDecl>, superclass: Option<nat>) returns (klass: nat)
      requires Valid() && (superclass.Some? ==> superclass.value < |heap.classes|)
      modifies this`environment, heap
      ensures Valid() && environment == old(environment) && Grows(old(heap.State()), heap.State())
      ensures klass == |old(heap.classes)| && heap.State() == ClassDeclared(old(heap.State()), environment, name, decls, superclass)
      ensures klass < |heap.classes| && heap.classes[klass].name == name && heap.classes[klass].superclass == superclass
      ensures heap.classes[klass].methods.Keys == set i | 0 <= i < |decls| :: decls[i].name.lexeme
      ensures name in heap.frames[environment].values && heap.frames[environment].values[name] == ClassRef(klass)
    {
      var outer := environment;
      ghost var h0 := heap.State();
      heap.Define(environment, name, Nil);
      ghost var h1 := heap.State();
      if superclass.Some? {
        environment := SuperEnvironment(superclass.value);
      }
      ghost var h2 := heap.State();
      GrowsTransitive(h0, h1, h2);
      var methods := MakeMethods(decls, environment);
      klass := heap.NewClass(name, methods, superclass);
      ghost var h3 := heap.State();
      assert h3.functions == h0.functions + MethodObjects(decls, if superclass.Some? then |h0.frames| else outer);
      assert h3.classes == h0.classes + [ClassObj(name, MethodTable(decls, |h0.functions|), superclass)];
      assert h3.instances == h0.instances;
      environment := outer;
      var found := heap.Store(environment, name, ClassRef(klass));
      ghost var scope := if superclass.Some? then [Frame(map["super" := ClassRef(superclass.value)], Some(outer))] else [];
      assert h3.frames == Defined(h0.frames, outer, name, Nil) + scope;
      DefineThenAssign(h0.frames, outer, name, Nil, ClassRef(klass), scope);
      GrowsTransitive(h2, h3, heap.State());
      GrowsTransitive(h0, h2, heap.State());
    }

    /** A new environment, enclosed by the current one, binding `super` to the superclass. */
    method SuperEnvironment(superclass: nat) returns (env: nat)
      requires Valid() && superclass < |heap.classes|
      modifies heap`frames
      ensures Valid() && env < |heap.frames| && Grows(old(heap.State()), heap.State())
      ensures heap.frames == old(heap.frames) + [Frame(map["super" := ClassRef(superclass)], Some(environment))]
      ensures env == |old(heap.frames)|
    {
      env := heap.NewFrame(environment);
      ghost var h := heap.State();
      heap.Define(env, "super", ClassRef(superclass));
      GrowsTransitive(old(heap.State()), h, heap.State());
    }

    /** The method table of a class: one function per declaration closing over `closure`, `init` marked as initializer, a later declaration replacing an earlier one of the same name. */
    method MakeMethods(decls: seq<FunDecl>, closure: nat) returns (methods: map<string, nat>)
      requires heap.Valid() && closure < |heap.frames|
      modifies heap`functions
      ensures heap.Valid() && Grows(old(heap.State()), heap.State())
      ensures heap.functions == old(heap.functions) + MethodObjects(decls, closure)
      ensures methods == MethodTable(decls, |old(heap.functions)|)
      ensures methods.Keys == set j | 0 <= j < |decls| :: decls[j].name.lexeme
      ensures forall k :: k in methods ==> |old(heap.functions)| <= methods[k] < |heap.functions|
      ensures forall k :: k in methods ==>
        heap.functions[methods[k]].declaration == decls[methods[k] - |old(heap.functions)|] &&
        heap.functions[methods[k]].closure == closure &&
        heap.functions[methods[k]].isInitializer == (k == InitName) && heap.functions[methods[k]].declaration.name.lexeme == k
    {
      ghost var base := |heap.functions|;
      methods := map[];
      for i := 0 to |decls|
        invariant heap.Valid() && Grows(old(heap.State()), heap.State())
        invariant methods == MethodTable(decls[..i], base)
        invariant heap.functions == old(heap.functions) + MethodObjects(decls[..i], closure)
      {
        var m := decls[i];
        var f := heap.NewFunction(m, closure, m.name.lexeme == InitName);
        methods := methods[m.name.lexeme := f];
        assert decls[..i + 1][..i] == decls[..i];
        MethodObjectsStep(decls, closure, i);
      }
      assert decls[..|decls|] == decls;
      MethodTableKeys(decls, base);
      MethodTableEntries(old(heap.functions), decls, closure);
    }

    /**
     * `interpret`: execute the statements in order; the first
     * EvaluationError is reported and ends the run, any other exception
     * (including a `return` outside a function) escapes. `outcomes` are the
     * outcomes of the statements that ran, in order; Ending says which of
     * them ends the run.
     */
    method Interpret(program: seq<Stmt>, fuel: nat) returns (result: RunResult, ghost outcomes: seq<Outcome>)
      requires Valid()
      modifies this`environment, this`output, this`clockCalls, this`errors, heap
      ensures Valid() && environment == old(environment) && Grows(old(heap.State()), heap.State())
      ensures result.Reported? ==> errors == old(errors) + [result.err]
      ensures !result.Reported? ==> errors == old(errors)
      ensures |outcomes| <= |program|
      ensures forall j :: 0 <= j < |outcomes| - 1 ==> Ending(outcomes[j]).None?
      ensures result.Completed? <==> |outcomes| == |program| && forall j :: 0 <= j < |outcomes| ==> Ending(outcomes[j]).None?
      ensures !result.Completed? ==> |outcomes| > 0 && Ending(outcomes[|outcomes| - 1]) == Some(result)
      ensures old(FirstAbrupt(Now(), program)).Some? && Ending(old(FirstAbrupt(Now(), program)).value).Some? ==>
        result == Ending(old(FirstAbrupt(Now(), program)).value).value && Quiet()
    {
      ghost var sn := Now();
      outcomes := [];
      for i := 0 to |program|
        invariant Valid() && environment == old(environment) && Grows(old(heap.State()), heap.State())
        invariant errors == old(errors)
        invariant |outcomes| == i
        invariant forall j :: 0 <= j < i ==> Ending(outcomes[j]).None?
        invariant FirstAbrupt(sn, program).Some? && Ending(FirstAbrupt(sn, program).value).Some? ==>
          FirstAbrupt(sn, program[i..]) == FirstAbrupt(sn, program) && Quiet() && Now() == sn
      {
        assert program[i..][0] == program[i] && program[i..][1..] == program[i + 1..];
        var o := Execute(program[i], fuel);
        outcomes := outcomes + [o];
        var end := Ending(o);
        if end.Some? {
          if end.value.Reported? {
            errors := errors + [end.value.err];
          }
          assert Ending(outcomes[i]).Some?;
          return end.value, outcomes;
        }
      }
      result := Completed;
    }
  }
}
