/**
 * The static pass between parser and interpreter
 * (craftinginterpreters/Resolver.py): it walks the statements with a stack
 * of block scopes, reports a handful of errors the parser cannot see, and
 * tells the interpreter at what depth each local variable reference is bound.
 *
 * A scope is a Python dict from name to one of three values: False
 * (declared, not yet defined), the line number of the name (defined, not yet
 * referenced) or -1 (referenced). Here that value is a `Slot`, and the dict's
 * insertion order is kept beside it because `endScope` reports the first
 * unreferenced name in that order. The first ResolutionError stops the walk.
 */
module Resolver {
  import opened Basics
  import Tokens
  import opened Ast
  import Interpreter

  /** `FunctionType`: whether a `return` is inside a function body. */
  datatype FunctionType = NoFun | InFunction

  /** The value a scope dict holds for a name. */
  datatype Slot = Declared | DefinedAt(line: int) | Referenced

  /** `== False` on the dict value: Python's False, and also the integer 0, which equals False. */
  predicate LooksFalse(s: Slot) {
    s.Declared? || s == DefinedAt(0)
  }

  /** `number >= 1` in `endScope`: defined at a line and never referenced since. */
  predicate Unreferenced(s: Slot) {
    s.DefinedAt? && s.line >= 1
  }

  /** A scope dict: the values, and the keys in insertion order. */
  datatype Scope = Scope(slots: map<string, Slot>, order: seq<string>)

  /** The insertion order lists every key exactly once. */
  ghost predicate ScopeWf(sc: Scope) {
    (forall i, j :: 0 <= i < j < |sc.order| ==> sc.order[i] != sc.order[j]) &&
    (forall n :: n in sc.slots <==> n in sc.order)
  }

  /** `scope[name] = slot`: a new key goes last, an existing key keeps its place. */
  function Put(sc: Scope, name: string, slot: Slot): (r: Scope)
    ensures r.slots == sc.slots[name := slot]
    ensures name in sc.slots ==> r.order == sc.order
    ensures name !in sc.slots ==> r.order == sc.order + [name]
    ensures ScopeWf(sc) ==> ScopeWf(r)
  {
    if name in sc.slots then Scope(sc.slots[name := slot], sc.order)
    else Scope(sc.slots[name := slot], sc.order + [name])
  }

  /** The first name, in the given order, whose slot is unreferenced. */
  function FirstUnreferenced(names: seq<string>, slots: map<string, Slot>): (r: Option<string>)
    ensures r.Some? ==> r.value in names && r.value in slots && Unreferenced(slots[r.value])
    ensures r.None? <==> forall n :: n in names && n in slots ==> !Unreferenced(slots[n])
  {
    if names == [] then None
    else if names[0] in slots && Unreferenced(slots[names[0]]) then Some(names[0])
    else
      assert forall n :: n in names ==> n == names[0] || n in names[1..];
      FirstUnreferenced(names[1..], slots)
  }

  /** No name before the one FirstUnreferenced picks is unreferenced: it is the first in the order. */
  lemma {:induction false} FirstUnreferencedIsFirst(names: seq<string>, slots: map<string, Slot>)
    requires FirstUnreferenced(names, slots).Some?
    ensures exists i :: 0 <= i < |names| && names[i] == FirstUnreferenced(names, slots).value &&
                        (forall j :: 0 <= j < i && names[j] in slots ==> !Unreferenced(slots[names[j]]))
  {
    if names[0] in slots && Unreferenced(slots[names[0]]) {
      assert names[0] == FirstUnreferenced(names, slots).value;
    } else {
      FirstUnreferencedIsFirst(names[1..], slots);
      var i :| 0 <= i < |names[1..]| && names[1..][i] == FirstUnreferenced(names[1..], slots).value &&
        forall j :: 0 <= j < i && names[1..][j] in slots ==> !Unreferenced(slots[names[1..][j]]);
      assert names[i + 1] == FirstUnreferenced(names, slots).value;
      forall j | 0 <= j < i + 1 && names[j] in slots
        ensures !Unreferenced(slots[names[j]])
      {
        if j > 0 {
          assert names[j] == names[1..][j - 1];
        }
      }
    }
  }

  /** What a ResolutionError says. */
  datatype Message = AlreadyDeclared | NeverReferenced(name: string) | TopLevelReturn | OwnInitializer

  function Text(m: Message): string {
    match m
    case AlreadyDeclared => "Variable with this name already declared in this scope."
    case NeverReferenced(name) => "Variable " + name + " never referenced in its scope"
    case TopLevelReturn => "Cannot return from top-level code."
    case OwnInitializer => "Cannot refer to local variable in its own initializer"
  }

  datatype ResolutionError = ResolutionError(token: Token, message: Message)

  /** The error `endScope` raises for a dying scope, if any: its token is re-created from the name and the line stored for it. */
  function ScopeError(sc: Scope): (r: Option<ResolutionError>)
    ensures r.Some? ==> r.value.token.kind == Tokens.Identifier && r.value.message == NeverReferenced(r.value.token.lexeme)
  {
    match FirstUnreferenced(sc.order, sc.slots)
    case None => None
    case Some(n) => Some(ResolutionError(Tokens.Token(Tokens.Identifier, n, Tokens.NoLiteral, sc.slots[n].line), NeverReferenced(n)))
  }

  /** A scope dies quietly exactly when every name in it was referenced, or never defined. */
  lemma ScopeErrorIffUnreferenced(sc: Scope)
    requires ScopeWf(sc)
    ensures ScopeError(sc).None? <==> forall n :: n in sc.slots ==> !Unreferenced(sc.slots[n])
    ensures ScopeError(sc).Some? ==> var n := ScopeError(sc).value.token.lexeme;
      n in sc.slots && Unreferenced(sc.slots[n]) && ScopeError(sc).value.token.line == sc.slots[n].line
  {
    var r := FirstUnreferenced(sc.order, sc.slots);
    if r.Some? {
      assert Unreferenced(sc.slots[r.value]);
    }
  }

  /** The index of the innermost of scopes[..n] holding name, as `resolveLocal` searches from the top down. */
  function Innermost(scopes: seq<Scope>, name: string, n: nat): (r: Option<nat>)
    requires n <= |scopes|
    ensures r.Some? ==> r.value < n && name in scopes[r.value].slots
    ensures r.Some? ==> forall j :: r.value < j < n ==> name !in scopes[j].slots
    ensures r.None? ==> forall j :: 0 <= j < n ==> name !in scopes[j].slots
  {
    if n == 0 then None
    else if name in scopes[n - 1].slots then Some(n - 1)
    else Innermost(scopes, name, n - 1)
  }

  /** What `visitReturn` does, as the resolver should: a top-level return is an error, a missing value is nothing to visit. */
  datatype ReturnStep = TopLevelError | VisitValue(value: Expr) | Nothing

  function ReturnStepFor(current: FunctionType, value: Option<Expr>): (r: ReturnStep)
    ensures r.TopLevelError? <==> current == NoFun
    ensures current == InFunction ==> (r.VisitValue? <==> value.Some?)
  {
    if current == NoFun then TopLevelError
    else if value.Some? then VisitValue(value.value)
    else Nothing
  }

  /** The resolver's statement methods keep every scope well formed. */
  ghost predicate ScopesWf(scopes: seq<Scope>) {
    forall i :: 0 <= i < |scopes| ==> ScopeWf(scopes[i])
  }

  /** Every scope still holds at least the names it held: the walk only adds names and marks them referenced. */
  ghost predicate KeptNames(before: seq<Scope>, after: seq<Scope>) {
    |before| == |after| && forall i :: 0 <= i < |before| ==> before[i].slots.Keys <= after[i].slots.Keys
  }

  /** Every scope holds exactly the names it held; only their slots may have changed. */
  ghost predicate SameNames(before: seq<Scope>, after: seq<Scope>) {
    |before| == |after| && forall i :: 0 <= i < |before| ==> before[i].slots.Keys == after[i].slots.Keys
  }

  /**
   * The scope `resolveFunDecl` opens: each parameter in turn is defined at
   * its line, so a repeated name keeps its place and takes the later line.
   */
  function ParamScope(params: seq<Token>): (r: Scope)
    ensures ScopeWf(r)
    ensures r.slots.Keys == set i | 0 <= i < |params| :: params[i].lexeme
  {
    if params == [] then Scope(map[], [])
    else
      var init := params[..|params| - 1];
      var last := params[|params| - 1];
      var r := Put(ParamScope(init), last.lexeme, DefinedAt(last.line));
      LexemesSnoc(params);
      r
  }

  /** The names of a parameter list are those of all but the last parameter, and the last one's. */
  lemma LexemesSnoc(params: seq<Token>)
    requires params != []
    ensures var init := params[..|params| - 1];
      (set i | 0 <= i < |params| :: params[i].lexeme) ==
      (set i | 0 <= i < |init| :: init[i].lexeme) + {params[|params| - 1].lexeme}
  {
    var init := params[..|params| - 1];
    assert forall i :: 0 <= i < |init| ==> init[i] == params[i];
  }

  /** A parameter that no later parameter repeats is defined at its own line, and so is not yet referenced. */
  lemma {:induction false} ParamScopeLine(params: seq<Token>, i: nat)
    requires i < |params|
    requires forall j :: i < j < |params| ==> params[j].lexeme != params[i].lexeme
    ensures ParamScope(params).slots[params[i].lexeme] == DefinedAt(params[i].line)
  {
    if i < |params| - 1 {
      var init := params[..|params| - 1];
      assert init[i] == params[i];
      forall j | i < j < |init|
        ensures init[j].lexeme != init[i].lexeme
      {
        assert init[j] == params[j];
      }
      ParamScopeLine(init, i);
    }
  }

  class Resolver {
    const interpreter: Interpreter.Interpreter
    var scopes: seq<Scope>
    var currentFunction: FunctionType
    var reported: seq<ResolutionError>

    ghost predicate Valid()
      reads this`scopes
    {
      ScopesWf(scopes)
    }

    /** A resolver for the interpreter that will run the program: no scope open, outside any function. */
    constructor (interpreter: Interpreter.Interpreter)
      ensures Valid() && this.interpreter == interpreter
      ensures scopes == [] && currentFunction == NoFun && reported == []
    {
      this.interpreter := interpreter;
      scopes := [];
      currentFunction := NoFun;
      reported := [];
    }

    /** `resolve`: walk the statements; the first ResolutionError is reported and ends the walk. */
    method Resolve(statements: seq<Stmt>)
      requires Valid()
      modifies this`scopes, this`currentFunction, this`reported, interpreter`locals
      ensures Valid()
      ensures |old(reported)| <= |reported| <= |old(reported)| + 1 && reported[..|old(reported)|] == old(reported)
      ensures |reported| == |old(reported)| ==> |scopes| == |old(scopes)| && currentFunction == old(currentFunction)
    {
      var err := ResolveStatements(statements);
      if err.Some? {
        reported := reported + [err.value];
      }
    }

    /** `resolve_statements`: each statement in turn, stopping at the first error. */
    method ResolveStatements(statements: seq<Stmt>) returns (err: Option<ResolutionError>)
      requires Valid()
      modifies this`scopes, this`currentFunction, interpreter`locals
      ensures Valid()
      ensures err.None? ==> KeptNames(old(scopes), scopes) && currentFunction == old(currentFunction)
      decreases StmtsSize(statements), 2
    {
      for i := 0 to |statements|
        invariant Valid() && KeptNames(old(scopes), scopes) && currentFunction == old(currentFunction)
      {
        StmtsSizeElement(statements, i);
        err := ResolveStmt(statements[i]);
        if err.Some? {
          return;
        }
      }
      err := None;
    }

    /** `beginScope`: push an empty dict. */
    method BeginScope()
      requires Valid()
      modifies this`scopes
      ensures Valid() && scopes == old(scopes) + [Scope(map[], [])]
    {
      scopes := scopes + [Scope(map[], [])];
    }

    /**
     * `endScope`: pop the innermost scope, then raise for the first name in
     * it, in insertion order, that was defined and never referenced.
     */
    method EndScope() returns (err: Option<ResolutionError>)
      requires Valid() && |scopes| > 0
      modifies this`scopes
      ensures Valid() && scopes == old(scopes)[..|old(scopes)| - 1]
      ensures err == ScopeError(old(scopes)[|old(scopes)| - 1])
    {
      var dying := scopes[|scopes| - 1];
      scopes := scopes[..|scopes| - 1];
      for k := 0 to |dying.order|
        invariant FirstUnreferenced(dying.order, dying.slots) == FirstUnreferenced(dying.order[k..], dying.slots)
      {
        var name := dying.order[k];
        assert dying.order[k..][1..] == dying.order[k + 1..];
        if name in dying.slots && Unreferenced(dying.slots[name]) {
          return Some(ResolutionError(Tokens.Token(Tokens.Identifier, name, Tokens.NoLiteral, dying.slots[name].line), NeverReferenced(name)));
        }
      }
      return None;
    }

    /** `declare`: in the innermost scope, if any, a name not yet there becomes declared; a second declaration is an error. */
    method Declare(item: Token) returns (err: Option<ResolutionError>)
      requires Valid()
      modifies this`scopes
      ensures Valid() && |scopes| == |old(scopes)|
      ensures err.Some? <==> |scopes| > 0 && item.lexeme in old(scopes)[|scopes| - 1].slots
      ensures err.Some? ==> err.value == ResolutionError(item, AlreadyDeclared) && scopes == old(scopes)
      ensures err.None? && |scopes| > 0 ==> scopes == old(scopes)[|scopes| - 1 := Put(old(scopes)[|scopes| - 1], item.lexeme, Declared)]
      ensures |scopes| == 0 ==> scopes == old(scopes) && err.None?
      ensures KeptNames(old(scopes), scopes)
    {
      if |scopes| > 0 {
        var top := |scopes| - 1;
        if item.lexeme in scopes[top].slots {
          return Some(ResolutionError(item, AlreadyDeclared));
        }
        scopes := scopes[top := Put(scopes[top], item.lexeme, Declared)];
      }
      return None;
    }

    /** `define`: in the innermost scope, if any, the name now holds its line: defined and not yet referenced. */
    method Define(item: Token)
      requires Valid()
      modifies this`scopes
      ensures Valid() && |scopes| == |old(scopes)|
      ensures |scopes| > 0 ==> scopes == old(scopes)[|scopes| - 1 := Put(old(scopes)[|scopes| - 1], item.lexeme, DefinedAt(item.line))]
      ensures |scopes| == 0 ==> scopes == old(scopes)
      ensures KeptNames(old(scopes), scopes)
    {
      if |scopes| > 0 {
        var top := |scopes| - 1;
        scopes := scopes[top := Put(scopes[top], item.lexeme, DefinedAt(item.line))];
      }
    }

    /**
     * `resolveLocal`: search the scopes from the innermost out; where the
     * name is found, tell the interpreter how many scopes lie between, and
     * mark the name referenced there. A name in no scope is left to the globals.
     */
    method ResolveLocal(id: nat, name: Token)
      requires Valid()
      modifies this`scopes, interpreter`locals
      ensures Valid() && |scopes| == |old(scopes)|
      ensures var k := Innermost(old(scopes), name.lexeme, |old(scopes)|);
        if k.Some? then
          interpreter.locals == old(interpreter.locals)[id := |scopes| - 1 - k.value] &&
          scopes == old(scopes)[k.value := Put(old(scopes)[k.value], name.lexeme, Referenced)]
        else
          interpreter.locals == old(interpreter.locals) && scopes == old(scopes)
      ensures SameNames(old(scopes), scopes)
    {
      var i := |scopes|;
      while i > 0
        invariant 0 <= i <= |scopes| && scopes == old(scopes) && interpreter.locals == old(interpreter.locals)
        invariant Innermost(scopes, name.lexeme, |scopes|) == Innermost(scopes, name.lexeme, i)
      {
        i := i - 1;
        if name.lexeme in scopes[i].slots {
          interpreter.Resolve(id, |scopes| - 1 - i);
          scopes := scopes[i := Put(scopes[i], name.lexeme, Referenced)];
          return;
        }
      }
    }

    /** One statement, by kind; classes and `break` are not visited. */
    method ResolveStmt(s: Stmt) returns (err: Option<ResolutionError>)
      requires Valid()
      modifies this`scopes, this`currentFunction, interpreter`locals
      ensures Valid()
      ensures err.None? ==> KeptNames(old(scopes), scopes) && currentFunction == old(currentFunction)
      decreases StmtSize(s), 1
    {
      match s
      case Block(_) => err := VisitBlock(s);
      case Var(_, _) => err := VisitVar(s);
      case Function(_) => err := VisitFunction(s);
      case If(_, _, _) => err := VisitIf(s);
      case While(_, _) => err := VisitWhile(s);
      case Expression(e) => err := ResolveExpr(e);
      case Print(e) => err := ResolveExpr(e);
      case Return(_, _) => err := VisitReturn(s);
      case Class(_, _, _) => err := None;
      case Break(_) => err := None;
    }

    /** `visitBlock`: the statements inside a fresh scope, which must die quietly. */
    method VisitBlock(s: Stmt) returns (err: Option<ResolutionError>)
      requires Valid() && s.Block?
      modifies this`scopes, this`currentFunction, interpreter`locals
      ensures Valid()
      ensures err.None? ==> KeptNames(old(scopes), scopes) && currentFunction == old(currentFunction)
      decreases StmtSize(s), 0
    {
      BeginScope();
      err := ResolveStatements(s.statements);
      if err.Some? {
        return;
      }
      err := EndScope();
    }

    /** `visitVar`: declare, resolve the initializer, then define. */
    method VisitVar(s: Stmt) returns (err: Option<ResolutionError>)
      requires Valid() && s.Var?
      modifies this`scopes, interpreter`locals
      ensures Valid() && |scopes| == |old(scopes)|
      ensures |scopes| > 0 && s.name.lexeme in old(scopes)[|scopes| - 1].slots ==> err == Some(ResolutionError(s.name, AlreadyDeclared))
      ensures err.None? && |scopes| > 0 ==>
        var top := scopes[|scopes| - 1];
        s.name.lexeme in top.slots && top.slots[s.name.lexeme] == DefinedAt(s.name.line)
      ensures err.None? ==> KeptNames(old(scopes), scopes)
      decreases StmtSize(s), 0
    {
      err := Declare(s.name);
      if err.Some? {
        return;
      }
      if s.initializer.Some? {
        err := ResolveExpr(s.initializer.value);
        if err.Some? {
          return;
        }
      }
      Define(s.name);
    }

    /** `visitFunction`: the name is declared and defined at once, so the body may call itself. */
    method VisitFunction(s: Stmt) returns (err: Option<ResolutionError>)
      requires Valid() && s.Function?
      modifies this`scopes, this`currentFunction, interpreter`locals
      ensures Valid()
      ensures err.None? ==> KeptNames(old(scopes), scopes) && currentFunction == old(currentFunction)
      ensures |old(scopes)| > 0 && s.decl.name.lexeme in old(scopes)[|old(scopes)| - 1].slots ==> err == Some(ResolutionError(s.decl.name, AlreadyDeclared))
      ensures err.None? && |scopes| > 0 ==> s.decl.name.lexeme in scopes[|scopes| - 1].slots
      decreases StmtSize(s), 0
    {
      err := Declare(s.decl.name);
      if err.Some? {
        return;
      }
      Define(s.decl.name);
      err := ResolveFunDecl(s.decl, InFunction);
    }

    /**
     * `resolveFunDecl`: inside the function the parameters are defined (not
     * declared: a repeated parameter is not caught) in a new scope, with the
     * body; the enclosing function type comes back afterwards.
     */
    method ResolveFunDecl(decl: FunDecl, funtype: FunctionType) returns (err: Option<ResolutionError>)
      requires Valid()
      // visitFunction defines the name in the enclosing scope first, so a recursive call in the body resolves
      requires |scopes| > 0 ==>
        decl.name.lexeme in scopes[|scopes| - 1].slots && scopes[|scopes| - 1].slots[decl.name.lexeme] == DefinedAt(decl.name.line)
      modifies this`scopes, this`currentFunction, interpreter`locals
      ensures Valid()
      ensures err.None? ==> KeptNames(old(scopes), scopes) && currentFunction == old(currentFunction)
      decreases StmtsSize(decl.body), 3
    {
      var enclosing := currentFunction;
      OpenFunctionScope(decl.params, funtype);
      err := ResolveStatements(decl.body);
      if err.Some? {
        return;
      }
      err := EndScope();
      if err.Some? {
        return;
      }
      currentFunction := enclosing;
    }

    /**
     * The start of `resolveFunDecl`: the function type becomes `funtype` and
     * a new scope opens in which each parameter is defined, not declared.
     */
    method OpenFunctionScope(params: seq<Token>, funtype: FunctionType)
      requires Valid()
      modifies this`scopes, this`currentFunction
      ensures Valid() && currentFunction == funtype
      ensures scopes == old(scopes) + [ParamScope(params)]
    {
      currentFunction := funtype;
      BeginScope();
      for i := 0 to |params|
        invariant Valid() && currentFunction == funtype && scopes == old(scopes) + [ParamScope(params[..i])]
      {
        assert params[..i + 1][..i] == params[..i];
        Define(params[i]);
      }
      assert params[..|params|] == params;
    }

    /** `visitIf`: the condition, the then branch, and the else branch when there is one. */
    method VisitIf(s: Stmt) returns (err: Option<ResolutionError>)
      requires Valid() && s.If?
      modifies this`scopes, this`currentFunction, interpreter`locals
      ensures Valid()
      ensures err.None? ==> KeptNames(old(scopes), scopes) && currentFunction == old(currentFunction)
      decreases StmtSize(s), 0
    {
      err := ResolveExpr(s.condition);
      if err.Some? {
        return;
      }
      err := ResolveStmt(s.thenBranch);
      if err.Some? || s.elseBranch.None? {
        return;
      }
      err := ResolveStmt(s.elseBranch.value);
    }

    /** `visitWhile`: the condition, then the body. */
    method VisitWhile(s: Stmt) returns (err: Option<ResolutionError>)
      requires Valid() && s.While?
      modifies this`scopes, this`currentFunction, interpreter`locals
      ensures Valid()
      ensures err.None? ==> KeptNames(old(scopes), scopes) && currentFunction == old(currentFunction)
      decreases StmtSize(s), 0
    {
      err := ResolveExpr(s.condition);
      if err.Some? {
        return;
      }
      err := ResolveStmt(s.body);
    }

    /** `visitReturn`, with a missing value treated as nothing to visit (see ReturnStepFor). */
    method VisitReturn(s: Stmt) returns (err: Option<ResolutionError>)
      requires Valid() && s.Return?
      modifies this`scopes, interpreter`locals
      ensures Valid() && |scopes| == |old(scopes)|
      ensures ReturnStepFor(currentFunction, s.value).TopLevelError? <==> err == Some(ResolutionError(s.keyword, TopLevelReturn))
      ensures ReturnStepFor(currentFunction, s.value).Nothing? ==> err.None? && scopes == old(scopes)
      ensures SameNames(old(scopes), scopes)
      decreases StmtSize(s), 0
    {
      match ReturnStepFor(currentFunction, s.value)
      case TopLevelError =>
        err := Some(ResolutionError(s.keyword, TopLevelReturn));
      case VisitValue(e) =>
        err := ResolveExpr(e);
      case Nothing =>
        err := None;
    }

    /** One expression, by kind; literals, `this`, `super` and property access and assignment are not visited. */
    method ResolveExpr(e: Expr) returns (err: Option<ResolutionError>)
      requires Valid()
      modifies this`scopes, interpreter`locals
      ensures Valid() && |scopes| == |old(scopes)|
      ensures err.Some? ==> err.value.message == OwnInitializer
      ensures SameNames(old(scopes), scopes)
      decreases ExprSize(e), 1
    {
      match e
      case Variable(id, name) =>
        err := VisitVariable(id, name);
      case Assign(id, name, value) =>
        err := ResolveExpr(value);
        if err.Some? {
          return;
        }
        ResolveLocal(id, name);
      case Binary(left, _, right) =>
        err := ResolveExpr(left);
        if err.Some? {
          return;
        }
        err := ResolveExpr(right);
      case Logical(left, _, right) =>
        err := ResolveExpr(left);
        if err.Some? {
          return;
        }
        err := ResolveExpr(right);
      case Call(callee, _, arguments) =>
        err := ResolveExpr(callee);
        if err.Some? {
          return;
        }
        err := ResolveExprs(arguments);
      case Unary(_, right) =>
        err := ResolveExpr(right);
      case Grouping(inner) =>
        err := ResolveExpr(inner);
      case _ =>
        err := None;
    }

    /** The arguments of a call, left to right, stopping at the first error. */
    method ResolveExprs(es: seq<Expr>) returns (err: Option<ResolutionError>)
      requires Valid()
      modifies this`scopes, interpreter`locals
      ensures Valid() && |scopes| == |old(scopes)|
      ensures err.Some? ==> err.value.message == OwnInitializer
      ensures SameNames(old(scopes), scopes)
      decreases ExprsSize(es), 2
    {
      for i := 0 to |es|
        invariant Valid() && SameNames(old(scopes), scopes)
      {
        ExprsSizeElement(es, i);
        err := ResolveExpr(es[i]);
        if err.Some? {
          return;
        }
      }
      err := None;
    }

    /**
     * `visitVariable`: reading a name that the innermost scope holds as
     * False (declared, its initializer still being resolved) is an error;
     * otherwise the reference is resolved.
     */
    method VisitVariable(id: nat, name: Token) returns (err: Option<ResolutionError>)
      requires Valid()
      modifies this`scopes, interpreter`locals
      ensures Valid() && |scopes| == |old(scopes)|
      ensures err.Some? <==>
        |scopes| > 0 && name.lexeme in old(scopes)[|scopes| - 1].slots && LooksFalse(old(scopes)[|scopes| - 1].slots[name.lexeme])
      ensures err.Some? ==> err.value == ResolutionError(name, OwnInitializer) && scopes == old(scopes)
      ensures err.None? ==> var k := Innermost(old(scopes), name.lexeme, |old(scopes)|);
        k.Some? ==> interpreter.locals == old(interpreter.locals)[id := |scopes| - 1 - k.value]
      ensures SameNames(old(scopes), scopes)
    {
      if |scopes| > 0 {
        var top := scopes[|scopes| - 1];
        if name.lexeme in top.slots && LooksFalse(top.slots[name.lexeme]) {
          return Some(ResolutionError(name, OwnInitializer));
        }
      }
      ResolveLocal(id, name);
      err := None;
    }
  }
}
