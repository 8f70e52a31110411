/**
 * Syntax trees (craftinginterpreters/Expr.py, Stmt.py, generated from the
 * tables in make_ASTs.py). Nodes that the resolver keys by identity
 * (Variable, Assign, This, Super) carry an integer `id` that the parser
 * makes unique; it replaces the object identity of the Python nodes.
 * `Break` is the statement the parser builds but the table never declared.
 */
module Ast {
  import opened Basics
  import Tokens
  type Token = Tokens.Token

  datatype LiteralValue = LNil | LBool(b: bool) | LNumber(r: real) | LString(s: string)

  datatype Expr =
    | Assign(id: nat, name: Token, value: Expr)
    | Binary(left: Expr, operator: Token, right: Expr)
    | Call(callee: Expr, paren: Token, arguments: seq<Expr>)
    | Get(obj: Expr, name: Token)
    | Grouping(expression: Expr)
    | Literal(lit: LiteralValue)
    | Logical(left: Expr, operator: Token, right: Expr)
    | Set(obj: Expr, name: Token, value: Expr)
    | Super(id: nat, keyword: Token, methodName: Token)
    | This(id: nat, keyword: Token)
    | Unary(operator: Token, right: Expr)
    | Variable(id: nat, name: Token)

  /** The superclass of a class declaration is always a variable reference. */
  datatype VarRef = VarRef(id: nat, name: Token)

  datatype FunDecl = FunDecl(name: Token, params: seq<Token>, body: seq<Stmt>)

  datatype Stmt =
    | Block(statements: seq<Stmt>)
    | Class(name: Token, methods: seq<FunDecl>, superclass: Option<VarRef>)
    | Expression(expression: Expr)
    | Function(decl: FunDecl)
    | If(condition: Expr, thenBranch: Stmt, elseBranch: Option<Stmt>)
    | Print(expression: Expr)
    | Return(keyword: Token, value: Option<Expr>)
    | Var(name: Token, initializer: Option<Expr>)
    | While(condition: Expr, body: Stmt)
    | Break(keyword: Token)

  // Sizes, used as termination measures by every tree walk.

  function ExprSize(e: Expr): nat {
    match e
    case Assign(_, _, v) => 1 + ExprSize(v)
    case Binary(l, _, r) => 1 + ExprSize(l) + ExprSize(r)
    case Call(c, _, args) => 1 + ExprSize(c) + ExprsSize(args)
    case Get(o, _) => 1 + ExprSize(o)
    case Grouping(x) => 1 + ExprSize(x)
    case Literal(_) => 1
    case Logical(l, _, r) => 1 + ExprSize(l) + ExprSize(r)
    case Set(o, _, v) => 1 + ExprSize(o) + ExprSize(v)
    case Super(_, _, _) => 1
    case This(_, _) => 1
    case Unary(_, r) => 1 + ExprSize(r)
    case Variable(_, _) => 1
  }

  function ExprsSize(es: seq<Expr>): nat {
    if es == [] then 0 else ExprSize(es[0]) + ExprsSize(es[1..])
  }

  function StmtSize(s: Stmt): nat {
    match s
    case Block(ss) => 1 + StmtsSize(ss)
    case Class(_, ms, _) => 1 + DeclsSize(ms)
    case Expression(e) => 1 + ExprSize(e)
    case Function(d) => 1 + StmtsSize(d.body)
    case If(c, t, e) => 1 + ExprSize(c) + StmtSize(t) + (if e.Some? then StmtSize(e.value) else 0)
    case Print(e) => 1 + ExprSize(e)
    case Return(_, v) => 1 + (if v.Some? then ExprSize(v.value) else 0)
    case Var(_, i) => 1 + (if i.Some? then ExprSize(i.value) else 0)
    case While(c, b) => 1 + ExprSize(c) + StmtSize(b)
    case Break(_) => 1
  }

  function StmtsSize(ss: seq<Stmt>): nat {
    if ss == [] then 0 else StmtSize(ss[0]) + StmtsSize(ss[1..])
  }

  function DeclsSize(ds: seq<FunDecl>): nat {
    if ds == [] then 0 else 1 + StmtsSize(ds[0].body) + DeclsSize(ds[1..])
  }

  /** Every element of a statement list is strictly smaller than the list's total size plus one. */
  lemma {:induction false} StmtsSizeElement(ss: seq<Stmt>, i: nat)
    requires i < |ss|
    ensures StmtSize(ss[i]) <= StmtsSize(ss)
  {
    if i > 0 {
      StmtsSizeElement(ss[1..], i - 1);
      assert ss[1..][i - 1] == ss[i];
    }
  }

  lemma {:induction false} ExprsSizeElement(es: seq<Expr>, i: nat)
    requires i < |es|
    ensures ExprSize(es[i]) <= ExprsSize(es)
  {
    if i > 0 {
      ExprsSizeElement(es[1..], i - 1);
      assert es[1..][i - 1] == es[i];
    }
  }

  lemma {:induction false} DeclsSizeElement(ds: seq<FunDecl>, i: nat)
    requires i < |ds|
    ensures StmtsSize(ds[i].body) < DeclsSize(ds)
  {
    if i > 0 {
      DeclsSizeElement(ds[1..], i - 1);
      assert ds[1..][i - 1] == ds[i];
    }
  }
}
