/**
 * The places where the interpreter's code, as written, does not do what its
 * own comments and the language it implements call for. Each is modelled here
 * as written, next to a lemma that exhibits the difference; the rest of the
 * model uses the intended behaviour (Interpreter, Resolver, AstPrinter).
 */
module Findings {
  import opened Basics
  import opened Ast
  import opened Values
  import opened Environment
  import Resolver

  // ---------------------------------------------------------------------------
  // Names handed to `get`, `assign`, `getAt` and `assignAt` as strings.

  /** What an Environment accessor receives as the name: the Token it reads `.lexeme` from, or a plain str. */
  datatype NameArg = TokenName(token: Token) | StrName(text: string)

  const NoLexeme := "'str' object has no attribute 'lexeme'"

  /** `Environment.get(name)` as written: `name.lexeme`, then `fetch`; None in the Option is the NameError. */
  function GetAsWritten(frames: seq<Frame>, e: nat, name: NameArg): Result<Option<Value>, string>
    requires Linked(frames) && e < |frames|
  {
    match name
    case StrName(_) => Err(NoLexeme)
    case TokenName(t) => Ok(Fetch(frames, e, t.lexeme))
  }

  /**
   * `lookUpVariable` as written: a global is read with `globals.get(name.lexeme)`,
   * a local with `environment.getAt(depth, name.lexeme)`; both hand `get` a str.
   * Only NameError is turned into a Lox error, so the AttributeError escapes.
   */
  function LookUpAsWritten(frames: seq<Frame>, env: nat, depth: Option<nat>, name: Token): Result<Value, string>
    requires Linked(frames) && env < |frames|
  {
    var found :=
      if depth.None? then GetAsWritten(frames, 0, StrName(name.lexeme))
      else match Ancestor(frames, env, depth.value)
        case None => Err("'NoneType' object has no attribute 'ancestor'")
        case Some(a) => GetAsWritten(frames, a, StrName(name.lexeme));
    match found
    case Err(msg) => Err(msg)
    case Ok(None) => Err("Undefined name " + name.lexeme)
    case Ok(Some(v)) => Ok(v)
  }

  /** As written, reading a variable fails even when the variable is bound where the resolver said it is. */
  lemma BoundVariableUnreadableAsWritten(frames: seq<Frame>, env: nat, depth: Option<nat>, name: Token)
    requires Linked(frames) && env < |frames|
    requires depth.None? ==> Fetch(frames, 0, name.lexeme).Some?
    requires depth.Some? ==> Distance(frames, env, name.lexeme) == depth
    ensures depth.None? ==> LookUpAsWritten(frames, env, depth, name) == Err(NoLexeme)
    ensures depth.Some? ==> Ancestor(frames, env, depth.value).Some? && LookUpAsWritten(frames, env, depth, name) == Err(NoLexeme)
  {
  }

  /**
   * The first read of `visitSuper` as written, `getAt(depth, "super")`: the
   * str "super" reaches `get`, which reads `.lexeme` from it. (`getAt(depth - 1,
   * "this")` would fail the same way, but is not reached.)
   */
  function SuperLookUpAsWritten(frames: seq<Frame>, env: nat, depth: nat): Result<Option<Value>, string>
    requires Linked(frames) && env < |frames|
  {
    match Ancestor(frames, env, depth)
    case None => Err("'NoneType' object has no attribute 'ancestor'")
    case Some(a) => GetAsWritten(frames, a, StrName("super"))
  }

  /**
   * As written, `super` cannot be read even at the depth where it is bound.
   * Handed the name's text, as the corrected lookup is, the same read from
   * the same ancestor finds the superclass that the nearest binding holds.
   */
  lemma SuperUnreadableAsWritten(frames: seq<Frame>, env: nat, depth: nat)
    requires Linked(frames) && env < |frames| && Distance(frames, env, "super") == Some(depth)
    ensures SuperLookUpAsWritten(frames, env, depth) == Err(NoLexeme)
    ensures Fetch(frames, env, "super").Some? && GetAt(frames, env, depth, "super") == Ok(Fetch(frames, env, "super"))
  {
    FetchIsNearest(frames, env, "super");
    GetAtAgreesWithFetch(frames, env, "super");
  }

  /** `Environment.assign(name, value)` as written: `name.lexeme`, then `store`. */
  function AssignAsWritten(frames: seq<Frame>, e: nat, name: NameArg, v: Value): Result<Option<seq<Frame>>, string>
    requires Linked(frames) && e < |frames|
  {
    match name
    case StrName(_) => Err(NoLexeme)
    case TokenName(t) => Ok(Assigned(frames, e, t.lexeme, v))
  }

  /** As written, assigning to a declared global fails: `visitAssign` hands `assign` a str. */
  lemma GlobalAssignmentFailsAsWritten(frames: seq<Frame>, name: Token, v: Value)
    requires Linked(frames) && 0 < |frames|
    requires Fetch(frames, 0, name.lexeme).Some?
    ensures Assigned(frames, 0, name.lexeme, v).Some?
    ensures AssignAsWritten(frames, 0, StrName(name.lexeme), v) == Err(NoLexeme)
  {
    FetchAfterAssign(frames, 0, name.lexeme, v);
  }

  // ---------------------------------------------------------------------------
  // The value of an assignment to a local variable.

  /**
   * `assignAt(distance, name, value)` as written: `ancestor(distance).assign(name, value)`.
   * Ok is the new arena; the method has no `return`, so what its caller
   * receives is None. A chain that ends too soon is the AttributeError of
   * `ancestor`, and a name bound nowhere the NameError of `store`.
   */
  function AssignAtAsWritten(frames: seq<Frame>, e: nat, distance: nat, name: NameArg, v: Value): Result<seq<Frame>, string>
    requires Linked(frames) && e < |frames|
  {
    match Ancestor(frames, e, distance)
    case None => Err("'NoneType' object has no attribute 'ancestor'")
    case Some(a) =>
      match AssignAsWritten(frames, a, name, v)
      case Err(msg) => Err(msg)
      case Ok(None) => Err("NameError")
      case Ok(Some(after)) => Ok(after)
  }

  /**
   * The local branch of `visitAssign` as written: it returns what `assignAt`
   * returns, which is None, Lox's nil, together with the arena after the store.
   */
  function LocalAssignAsWritten(frames: seq<Frame>, env: nat, depth: nat, name: NameArg, v: Value): Result<(Value, seq<Frame>), string>
    requires Linked(frames) && env < |frames|
  {
    match AssignAtAsWritten(frames, env, depth, name, v)
    case Err(msg) => Err(msg)
    case Ok(after) => Ok((Nil, after))
  }

  /**
   * As written, the local branch first fails like the global one: `visitAssign`
   * hands `assignAt` the str `name.lexeme`. Once the token is passed, as the
   * global row's correction does, the store at the resolver's depth succeeds
   * and reading the variable afterwards gives the new value, but the
   * assignment itself evaluates to nil: `{ var a; print a = 1; print a; }`
   * would print `nil`, then `1`.
   */
  lemma LocalAssignmentIsNilAsWritten(frames: seq<Frame>, env: nat, depth: nat, name: Token, v: Value)
    requires Linked(frames) && env < |frames| && Distance(frames, env, name.lexeme) == Some(depth)
    requires v != Nil
    ensures LocalAssignAsWritten(frames, env, depth, StrName(name.lexeme), v) == Err(NoLexeme)
    ensures var r := LocalAssignAsWritten(frames, env, depth, TokenName(name), v);
      r.Ok? && r.value.0 != v && Linked(r.value.1) && Fetch(r.value.1, env, name.lexeme) == Some(v)
  {
    FetchAfterDefineAtDistance(frames, env, depth, name.lexeme, v);
  }

  // ---------------------------------------------------------------------------
  // The binding of a class declaration.

  /**
   * `visitClass` as written, from its `define(name_str, None)` to its last
   * line, `assign(name_str, klass)`: the name is first bound to nil in the
   * current environment, then assigned the class by a call that is handed a str.
   */
  function ClassBindingAsWritten(frames: seq<Frame>, e: nat, name: NameArg, klass: Value): Result<seq<Frame>, string>
    requires Linked(frames) && e < |frames|
  {
    var lexeme := match name case TokenName(t) => t.lexeme case StrName(text) => text;
    var declared := Defined(frames, e, lexeme, Nil);
    FetchAfterDefine(frames, e, lexeme, Nil);
    match AssignAsWritten(declared, e, name, klass)
    case Err(msg) => Err(msg)
    case Ok(None) => Err("NameError")
    case Ok(Some(after)) => Ok(after)
  }

  /**
   * As written, every class declaration fails with the AttributeError: the name
   * `define` has just bound is assigned through a str. Passed the token, the
   * same steps leave the name bound to the class in the current environment.
   */
  lemma ClassDeclarationFailsAsWritten(frames: seq<Frame>, e: nat, name: Token, klass: Value)
    requires Linked(frames) && e < |frames|
    ensures ClassBindingAsWritten(frames, e, StrName(name.lexeme), klass) == Err(NoLexeme)
    ensures var r := ClassBindingAsWritten(frames, e, TokenName(name), klass);
      r.Ok? && Linked(r.value) && name.lexeme in r.value[e].values && r.value[e].values[name.lexeme] == klass
  {
    var declared := Defined(frames, e, name.lexeme, Nil);
    FetchAfterDefine(frames, e, name.lexeme, Nil);
    FetchAfterAssign(declared, e, name.lexeme, klass);
  }

  // ---------------------------------------------------------------------------
  // `break` through the CONTINUE flag.

  /**
   * The out-of-band flag as written: for each environment of the chain,
   * innermost first, whether it binds CONTINUE and to what. The interpreter
   * defines it as true in the globals.
   */
  type FlagChain = seq<Option<bool>>

  /** `fetch(CONTINUE)`: the binding in the nearest environment that has one. */
  function FetchFlag(chain: FlagChain): Option<bool> {
    if chain == [] then None
    else if chain[0].Some? then chain[0]
    else FetchFlag(chain[1..])
  }

  /** `define(CONTINUE, b)`: bind it in the current, innermost environment. */
  function DefineFlag(chain: FlagChain, b: bool): FlagChain
    requires chain != []
  {
    [Some(b)] + chain[1..]
  }

  /**
   * `visitBreak`, `execute_block` and `visitWhile` as written, for the
   * statements that touch the flag; a loop condition here is a literal, and
   * every other statement leaves the flag alone. None is a loop that runs out
   * of fuel.
   */
  function RunAsWritten(s: Stmt, chain: FlagChain, fuel: nat): Option<FlagChain>
    requires chain != []
    decreases fuel, StmtSize(s), 0
  {
    match s
    case Break(_) => Some(DefineFlag(chain, false))
    case Block(statements) =>
      (match RunBlockAsWritten(statements, [None] + chain, fuel)
       case None => None
       case Some(inner) => Some(inner[1..]))
    case While(Literal(LBool(b)), body) =>
      (match LoopAsWritten(b, body, DefineFlag(chain, true), fuel)
       case None => None
       case Some(after) => if after == [] then None else Some(DefineFlag(after, true)))
    case _ => Some(chain)
  }

  /** `execute_block`: after each statement, stop when `fetch(CONTINUE)` in the block's own environment is false. */
  function RunBlockAsWritten(statements: seq<Stmt>, chain: FlagChain, fuel: nat): (r: Option<FlagChain>)
    requires chain != []
    ensures r.Some? ==> |r.value| == |chain|
    decreases fuel, StmtsSize(statements), 1
  {
    if statements == [] then Some(chain)
    else
      match RunAsWritten(statements[0], chain, fuel)
      case None => None
      case Some(next) =>
        if |next| != |chain| then None
        else if FetchFlag(next) == Some(false) then Some(next)
        else RunBlockAsWritten(statements[1..], next, fuel)
  }

  /** The `while` of `visitWhile`: go on while the condition holds and `fetch(CONTINUE)` in the loop's environment is true. */
  function LoopAsWritten(b: bool, body: Stmt, chain: FlagChain, fuel: nat): Option<FlagChain>
    requires chain != []
    decreases fuel, StmtSize(body), 2
  {
    if !(b && FetchFlag(chain) == Some(true)) then Some(chain)
    else if fuel == 0 then None
    else
      match RunAsWritten(body, chain, fuel - 1)
      case None => None
      case Some(next) => if next == [] then None else LoopAsWritten(b, body, next, fuel - 1)
  }

  /** One run of the body `{ break; }` as written: the flag is set in the block's environment, which is then dropped. */
  lemma BlockBreakLeavesFlag(keyword: Token, rest: FlagChain, fuel: nat)
    ensures RunAsWritten(Block([Break(keyword)]), [Some(true)] + rest, fuel) == Some([Some(true)] + rest)
  {
    var inner := [None, Some(true)] + rest;
    assert [None] + ([Some(true)] + rest) == inner;
    assert RunAsWritten(Break(keyword), inner, fuel) == Some([Some(false)] + inner[1..]);
    assert FetchFlag([Some(false)] + inner[1..]) == Some(false);
    assert [Break(keyword)][1..] == [];
    assert ([Some(false)] + inner[1..])[1..] == [Some(true)] + rest;
  }

  lemma {:induction false} LoopSpins(keyword: Token, rest: FlagChain, fuel: nat)
    ensures LoopAsWritten(true, Block([Break(keyword)]), [Some(true)] + rest, fuel) == None
  {
    if fuel > 0 {
      BlockBreakLeavesFlag(keyword, rest, fuel - 1);
      LoopSpins(keyword, rest, fuel - 1);
    }
  }

  /** As written, `while (true) { break; }` never stops, however much fuel it is given. */
  lemma BreakInBlockSpinsAsWritten(keyword: Token, fuel: nat)
    ensures RunAsWritten(While(Literal(LBool(true)), Block([Break(keyword)])), [Some(true)], fuel) == None
  {
    var body := Block([Break(keyword)]);
    assert DefineFlag([Some(true)], true) == [Some(true)] + [];
    LoopSpins(keyword, [], fuel);
    assert LoopAsWritten(true, body, DefineFlag([Some(true)], true), fuel) == None;
  }

  /** As written, a `break` that is the loop body itself does stop the loop: `while (true) break;` ends after one run. */
  lemma BareBreakStopsAsWritten(keyword: Token, fuel: nat)
    requires fuel >= 1
    ensures RunAsWritten(While(Literal(LBool(true)), Break(keyword)), [Some(true)], fuel) == Some([Some(true)])
  {
    assert DefineFlag([Some(true)], true) == [Some(true)];
    assert DefineFlag([Some(true)], false) == [Some(false)];
    assert LoopAsWritten(true, Break(keyword), [Some(false)], fuel - 1) == Some([Some(false)]);
    assert LoopAsWritten(true, Break(keyword), [Some(true)], fuel) == Some([Some(false)]);
    assert DefineFlag([Some(false)], true) == [Some(true)];
  }

  /**
   * How many times the loop of `visitWhile` as written evaluates a condition
   * that is truthy every time, such as a call `f()` that returns true. The
   * condition is the left operand of `and`, so it is evaluated before the
   * flag is read: the test that follows a `break` still evaluates it. None
   * is a loop that runs out of fuel.
   */
  function ConditionChecksAsWritten(body: Stmt, chain: FlagChain, fuel: nat): Option<nat>
    requires chain != []
    decreases fuel
  {
    if FetchFlag(chain) != Some(true) then Some(1)
    else if fuel == 0 then None
    else
      match RunAsWritten(body, chain, fuel - 1)
      case None => None
      case Some(next) =>
        if next == [] then None
        else
          match ConditionChecksAsWritten(body, next, fuel - 1)
          case None => None
          case Some(n) => Some(n + 1)
  }

  /** As written, `while (f()) break;` calls `f` twice: once to enter the body, and once more after the `break`, before the flag stops the loop. */
  lemma BreakEvaluatesConditionAgainAsWritten(keyword: Token, fuel: nat)
    requires fuel >= 1
    ensures ConditionChecksAsWritten(Break(keyword), DefineFlag([Some(true)], true), fuel) == Some(2)
  {
    assert DefineFlag([Some(true)], true) == [Some(true)];
    assert DefineFlag([Some(true)], false) == [Some(false)];
    assert RunAsWritten(Break(keyword), [Some(true)], fuel - 1) == Some([Some(false)]);
    assert ConditionChecksAsWritten(Break(keyword), [Some(false)], fuel - 1) == Some(1);
  }

  // ---------------------------------------------------------------------------
  // The resolver and `return;`.

  /** What `visitReturn` does as written: outside a function an error, inside one `client.value.accept`, which fails on a missing value. */
  datatype ReturnStepAsWritten = TopLevel | Visit(value: Expr) | NoneHasNoAccept

  function ReturnStepAsWrittenFor(current: Resolver.FunctionType, value: Option<Expr>): ReturnStepAsWritten {
    if current == Resolver.NoFun then TopLevel
    else if value.Some? then Visit(value.value)
    else NoneHasNoAccept
  }

  /** As written, a bare `return;` inside a function, which the parser builds with no value, stops the resolver with an AttributeError. */
  lemma BareReturnCrashesAsWritten()
    ensures ReturnStepAsWrittenFor(Resolver.InFunction, None) == NoneHasNoAccept
    ensures Resolver.ReturnStepFor(Resolver.InFunction, None).Nothing?
  {
  }
}
