/**
 * The value-level rules of the interpreter (craftinginterpreters/Interpreter.py):
 * truthiness, equality, the unary and binary operators with their errors,
 * and the text `print` writes. Numbers are Python floats; here they are
 * reals, and `float()` applied to a string is the parameter `parse`.
 */
module Operations {
  import opened Basics
  import Tokens
  import opened Ast
  import opened Values

  /** An `EvaluationError`: the token whose line is reported, and the message. */
  datatype EvalError = EvalError(token: Token, message: string)

  /** Why evaluation stopped early: a reported error, an uncaught host exception, or exhausted fuel. */
  datatype Abort = Error(err: EvalError) | Crash(reason: string) | OutOfFuel

  /** How a statement finished: normally, by `return` (the ReturnUnwinder), by `break`, or aborted. */
  datatype Outcome = Normal | ReturnSignal(value: Value) | BreakSignal | Abrupt(abort: Abort)

  /** The value of a literal node. */
  function LiteralToValue(l: LiteralValue): Value {
    match l
    case LNil => Nil
    case LBool(b) => Bool(b)
    case LNumber(r) => Num(r)
    case LString(s) => Str(s)
  }

  /** `isTruthy`: None is false, a bool is itself, everything else is true. */
  predicate IsTruthy(v: Value) {
    match v
    case Nil => false
    case Bool(b) => b
    case _ => true
  }

  /** A bool used as a number, as Python does. */
  function BoolAsReal(b: bool): real {
    if b then 1.0 else 0.0
  }

  /** `isEqual` is Python `==`: bools equal the numbers 1.0 and 0.0, objects are equal only to themselves. */
  predicate IsEqual(a: Value, b: Value) {
    match (a, b)
    case (Bool(x), Num(y)) => BoolAsReal(x) == y
    case (Num(x), Bool(y)) => x == BoolAsReal(y)
    case _ => a == b
  }

  predicate Numeric(v: Value) {
    v.Num? || v.Bool?
  }

  function NumericValue(v: Value): real
    requires Numeric(v)
  {
    if v.Num? then v.r else BoolAsReal(v.b)
  }

  /** Equality is identity, except that bools and numbers compare as numbers. */
  lemma IsEqualCharacterized(a: Value, b: Value)
    ensures IsEqual(a, b) <==> (if Numeric(a) && Numeric(b) then NumericValue(a) == NumericValue(b) else a == b)
  {
  }

  /** Equality is an equivalence relation on values. */
  lemma IsEqualEquivalence(a: Value, b: Value, c: Value)
    ensures IsEqual(a, a)
    ensures IsEqual(a, b) ==> IsEqual(b, a)
    ensures IsEqual(a, b) && IsEqual(b, c) ==> IsEqual(a, c)
  {
    IsEqualCharacterized(a, b);
    IsEqualCharacterized(b, c);
    IsEqualCharacterized(a, c);
  }

  /** How `float(x)` fails: ValueError (caught by the interpreter) or TypeError (not caught). */
  datatype Coercion = ValueErr | TypeErr

  /** Python `float(x)` on a value. */
  function ToFloat(v: Value, parse: string -> Option<real>): (r: Result<real, Coercion>)
    ensures Numeric(v) ==> r == Ok(NumericValue(v))
    ensures r.Err? && r.error == TypeErr <==> !Numeric(v) && !v.Str?
  {
    match v
    case Bool(b) => Ok(BoolAsReal(b))
    case Num(x) => Ok(x)
    case Str(s) => if parse(s).Some? then Ok(parse(s).value) else Err(ValueErr)
    case _ => Err(TypeErr)
  }

  /** The Python type of a value, compared by `type(lhs) != type(rhs)`. */
  datatype TypeTag = NoneType | BoolType | FloatType | StrType | FunctionType | ClassType | InstanceType | ClockType

  function TypeOf(v: Value): TypeTag {
    match v
    case Nil => NoneType
    case Bool(_) => BoolType
    case Num(_) => FloatType
    case Str(_) => StrType
    case FunRef(_) => FunctionType
    case ClassRef(_) => ClassType
    case InstanceRef(_) => InstanceType
    case Clock => ClockType
  }

  /** The operators of the interpreter's table of lambdas. */
  predicate Arithmetic(k: Tokens.TokenKind) {
    k == Tokens.Plus || k == Tokens.Minus || k == Tokens.Star || k == Tokens.Slash
  }

  predicate Comparison(k: Tokens.TokenKind) {
    k == Tokens.Greater || k == Tokens.GreaterEqual || k == Tokens.Less || k == Tokens.LessEqual
  }

  /** The table entry applied to two floats; the divisor of `/` is not zero. */
  function ApplyOperator(k: Tokens.TokenKind, x: real, y: real): Value
    requires Arithmetic(k) || Comparison(k)
    requires k == Tokens.Slash ==> y != 0.0
  {
    match k
    case Plus => Num(x + y)
    case Minus => Num(x - y)
    case Star => Num(x * y)
    case Slash => Num(x / y)
    case Greater => Bool(x > y)
    case GreaterEqual => Bool(x >= y)
    case Less => Bool(x < y)
    case LessEqual => Bool(x <= y)
  }

  function Fail(op: Token, message: string): Result<Value, Abort> {
    Err(Error(EvalError(op, message)))
  }

  /** `visitBinary` once both operands are evaluated. */
  function BinaryOp(op: Token, lhs: Value, rhs: Value, parse: string -> Option<real>): (r: Result<Value, Abort>)
    ensures r.Ok? ==> r.value.Bool? || r.value.Num? || r.value.Str?
    ensures r.Ok? && !(op.kind == Tokens.EqualEqual || op.kind == Tokens.BangEqual) && !r.value.Str? ==>
      ToFloat(lhs, parse).Ok? && ToFloat(rhs, parse).Ok?
    ensures r.Ok? && r.value.Str? ==> op.kind == Tokens.Plus && lhs.Str? && rhs.Str? && r.value.s == lhs.s + rhs.s
  {
    var k := op.kind;
    if k == Tokens.EqualEqual then Ok(Bool(IsEqual(lhs, rhs)))
    else if k == Tokens.BangEqual then Ok(Bool(!IsEqual(lhs, rhs)))
    else if k == Tokens.Plus && lhs.Str? && rhs.Str? then Ok(Str(lhs.s + rhs.s))
    else if k == Tokens.Plus && TypeOf(lhs) != TypeOf(rhs) then Fail(op, "Both operands must have the same type")
    else if Arithmetic(k) || Comparison(k) then
      match ToFloat(lhs, parse)
      case Err(TypeErr) => Err(Crash("TypeError: float() argument must be a string or a number"))
      case Err(ValueErr) => Fail(op, "Numeric operands required")
      case Ok(x) =>
        match ToFloat(rhs, parse)
        case Err(TypeErr) => Err(Crash("TypeError: float() argument must be a string or a number"))
        case Err(ValueErr) => Fail(op, "Numeric operands required")
        case Ok(y) =>
          if k == Tokens.Slash && y == 0.0 then Fail(op, "Cannot divide by zero")
          else Ok(ApplyOperator(k, x, y))
    else Err(Crash("NotImplementedError"))
  }

  /** `!=` always answers the opposite of `==`, and neither can fail. */
  lemma NotEqualNegatesEqual(eq: Token, ne: Token, lhs: Value, rhs: Value, parse: string -> Option<real>)
    requires eq.kind == Tokens.EqualEqual && ne.kind == Tokens.BangEqual
    ensures BinaryOp(eq, lhs, rhs, parse).Ok? && BinaryOp(ne, lhs, rhs, parse).Ok?
    ensures BinaryOp(ne, lhs, rhs, parse).value == Bool(!BinaryOp(eq, lhs, rhs, parse).value.b)
  {
  }

  /** `a < b` and `a >= b` always agree to disagree, and `a > b` is `b < a`. */
  lemma ComparisonsDual(lt: Token, ge: Token, gt: Token, lhs: Value, rhs: Value, parse: string -> Option<real>)
    requires lt.kind == Tokens.Less && ge.kind == Tokens.GreaterEqual && gt.kind == Tokens.Greater
    requires BinaryOp(lt, lhs, rhs, parse).Ok?
    ensures BinaryOp(ge, lhs, rhs, parse).Ok?
    ensures BinaryOp(ge, lhs, rhs, parse).value == Bool(!BinaryOp(lt, lhs, rhs, parse).value.b)
    ensures BinaryOp(gt, rhs, lhs, parse) == BinaryOp(lt, lhs, rhs, parse)
  {
    var x, y := ToFloat(lhs, parse), ToFloat(rhs, parse);
    assert x.Ok? && y.Ok?;
    assert BinaryOp(lt, lhs, rhs, parse) == Ok(Bool(x.value < y.value));
    assert BinaryOp(ge, lhs, rhs, parse) == Ok(Bool(x.value >= y.value));
    assert BinaryOp(gt, rhs, lhs, parse) == Ok(Bool(y.value > x.value));
  }

  /** Dividing any number by zero is the reported "Cannot divide by zero", never a value. */
  lemma DivideByZeroReported(op: Token, lhs: Value, parse: string -> Option<real>)
    requires op.kind == Tokens.Slash && Numeric(lhs)
    ensures BinaryOp(op, lhs, Num(0.0), parse) == Fail(op, "Cannot divide by zero")
    ensures BinaryOp(op, lhs, Bool(false), parse) == Fail(op, "Cannot divide by zero")
  {
  }

  /** `+` on two values of different types is the reported type error unless both are strings. */
  lemma MixedPlusReported(op: Token, lhs: Value, rhs: Value, parse: string -> Option<real>)
    requires op.kind == Tokens.Plus && TypeOf(lhs) != TypeOf(rhs)
    ensures BinaryOp(op, lhs, rhs, parse) == Fail(op, "Both operands must have the same type")
  {
  }

  /** Addition and multiplication of numbers do not depend on operand order. */
  lemma ArithmeticCommutes(op: Token, x: real, y: real, parse: string -> Option<real>)
    requires op.kind == Tokens.Plus || op.kind == Tokens.Star
    ensures BinaryOp(op, Num(x), Num(y), parse) == BinaryOp(op, Num(y), Num(x), parse)
  {
    assert x + y == y + x && x * y == y * x;
    assert BinaryOp(op, Num(x), Num(y), parse) == Ok(ApplyOperator(op.kind, x, y));
    assert BinaryOp(op, Num(y), Num(x), parse) == Ok(ApplyOperator(op.kind, y, x));
  }

  /** `visitUnary` once the operand is evaluated: `-` negates a float, anything else is `!`. */
  function UnaryOp(op: Token, v: Value, parse: string -> Option<real>): (r: Result<Value, Abort>)
    ensures op.kind != Tokens.Minus ==> r == Ok(Bool(!IsTruthy(v)))
    ensures op.kind == Tokens.Minus && Numeric(v) ==> r == Ok(Num(-NumericValue(v)))
    ensures op.kind == Tokens.Minus && v.Str? && parse(v.s).None? ==> r == Fail(op, "A numeric value is required")
    ensures op.kind == Tokens.Minus && !Numeric(v) && !v.Str? ==> r.Err? && r.error.Crash?
  {
    if op.kind == Tokens.Minus then
      match ToFloat(v, parse)
      case Ok(x) => Ok(Num(-x))
      case Err(ValueErr) => Fail(op, "A numeric value is required")
      case Err(TypeErr) => Err(Crash("TypeError: float() argument must be a string or a number"))
    else Ok(Bool(!IsTruthy(v)))
  }

  /** Negating twice gives back the number; `!!v` is v's truthiness. */
  lemma UnaryTwice(minus: Token, bang: Token, v: Value, parse: string -> Option<real>)
    requires minus.kind == Tokens.Minus && bang.kind == Tokens.Bang
    ensures Numeric(v) ==> UnaryOp(minus, UnaryOp(minus, v, parse).value, parse) == Ok(Num(NumericValue(v)))
    ensures UnaryOp(bang, UnaryOp(bang, v, parse).value, parse) == Ok(Bool(IsTruthy(v)))
  {
  }

  /** `visitLogical`: the left value when it decides the result, else the right one. */
  predicate ShortCircuits(op: Tokens.TokenKind, left: Value) {
    if op == Tokens.Or then IsTruthy(left) else !IsTruthy(left)
  }

  function LogicalValue(op: Tokens.TokenKind, left: Value, right: Value): Value {
    if ShortCircuits(op, left) then left else right
  }

  /** `or` and `and` compute the boolean or and and of their operands' truthiness. */
  lemma LogicalTruthiness(left: Value, right: Value)
    ensures IsTruthy(LogicalValue(Tokens.Or, left, right)) == (IsTruthy(left) || IsTruthy(right))
    ensures IsTruthy(LogicalValue(Tokens.And, left, right)) == (IsTruthy(left) && IsTruthy(right))
  {
  }

  /** `str(value)` for everything but floats, whose text is the parameter `numText`. */
  function Display(h: HeapState, v: Value, numText: real -> string): string
    requires ValueIn(h, v)
  {
    match v
    case Nil => "None"
    case Bool(b) => if b then "True" else "False"
    case Num(x) => numText(x)
    case Str(s) => s
    case FunRef(f) => "fun " + h.functions[f].declaration.name.lexeme + "()"
    case ClassRef(c) => "class " + h.classes[c].name
    case InstanceRef(i) => (if h.instances[i].klass < |h.classes| then h.classes[h.instances[i].klass].name else "") + " instance."
    case Clock => "native function 'time'"
  }

  predicate EndsWithPointZero(s: string) {
    |s| >= 2 && s[|s| - 2..] == ".0"
  }

  /** What `visitPrint` writes: the text with one trailing ".0" dropped. */
  function Printed(s: string): (r: string)
    ensures EndsWithPointZero(s) ==> r + ".0" == s
    ensures !EndsWithPointZero(s) ==> r == s
  {
    if EndsWithPointZero(s) then s[..|s| - 2] else s
  }

  /** The decimal text of a count, as an f-string writes an int. */
  function NatText(n: nat): (r: string)
    ensures |r| >= 1 && forall i :: 0 <= i < |r| ==> '0' <= r[i] <= '9'
    decreases n
  {
    if n < 10 then [(48 + n) as char] else NatText(n / 10) + [(48 + n % 10) as char]
  }
}
