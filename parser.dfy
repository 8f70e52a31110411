/**
 * The recursive-descent parser (craftinginterpreters/Parser.py).
 *
 * A raised ParseError is an `Err` result that every grammar method passes
 * straight up; `declaration` is where it is caught, reported (appended to
 * `errors`) and followed by `synchronize`. Every node that the resolver
 * keys by identity gets the next number from `nextId`.
 */
module Parser {
  import opened Basics
  import Tokens
  import opened Ast

  /** What `function` is parsing, as its `expected` argument names it. */
  datatype Declared = AFunction | AMethod {
    function Word(): string {
      match this
      case AFunction => "function"
      case AMethod => "method"
    }
  }

  /** The parser's error messages; Text gives each one's wording. */
  datatype Message =
    | BlockEnd | ClassName | SuperclassName | ClassBodyStart | ClassBodyEnd | FunctionName(kind: Declared)
    | ParenAfterName(kind: Declared) | TooManyParameters | ParameterName | ParameterListEnd
    | FunctionBody(kind: Declared) | VariableName | VarSemicolon | ForParen | ForConditionSemicolon
    | ForClauseEnd | IfParen | IfConditionEnd | ValueSemicolon | ReturnSemicolon | WhileParen
    | WhileConditionEnd | BreakOutsideLoop | BreakSemicolon | InvalidAssignmentTarget | PropertyName
    | TooManyArguments | CallEnd | SuperDot | SuperMethodName | GroupEnd | MissingLeftOperand
    | UnanticipatedInput

  function Text(m: Message): string {
    match m
    case BlockEnd => "Expect '}' after block."
    case ClassName => "Expect class name."
    case SuperclassName => "Expect superclass name."
    case ClassBodyStart => "Expect '{' before class body."
    case ClassBodyEnd => "Expect '}' to close class declaration."
    case FunctionName(kind) => "Expect " + kind.Word() + " name"
    case ParenAfterName(kind) => "Expect '(' after " + kind.Word() + " name"
    case TooManyParameters => "Cannot have more than 16 parameters."
    case ParameterName => "Expect parameter name"
    case ParameterListEnd => "Expect ')' to close parameter list"
    case FunctionBody(kind) => "Expect block statement as " + kind.Word() + " body"
    case VariableName => "Expect variable name."
    case VarSemicolon => "Expect ';' after variable declaration."
    case ForParen => "Expect '(' after 'for'"
    case ForConditionSemicolon => "expect ';' after loop condition"
    case ForClauseEnd => "expect ')' to close for(...)"
    case IfParen => "'(' required for if-condition"
    case IfConditionEnd => "')' expected after if-condition"
    case ValueSemicolon => "Expect ';' after value."
    case ReturnSemicolon => "Expect semicolon after 'return'"
    case WhileParen => "Expect '(' after 'while'."
    case WhileConditionEnd => "Expect while condition to close with ')'."
    case BreakOutsideLoop => "Break statement only allowed within a loop."
    case BreakSemicolon => "Expect ';' after 'break'."
    case InvalidAssignmentTarget => "Invalid target for assignment"
    case PropertyName => "Expect property name after '.'"
    case TooManyArguments => "Function may not have 16 arguments"
    case CallEnd => "This message cannot be displayed"
    case SuperDot => "Expect '.' after 'super'"
    case SuperMethodName => "Expect superclass method name."
    case GroupEnd => "Expected ')' after expression"
    case MissingLeftOperand => "operator requires a left operand"
    case UnanticipatedInput => "Unanticipated input"
  }

  /** What `Parser.ParseError` carries: the offending token and the message. */
  datatype ParseError = ParseError(token: Token, message: Message)

  /** `Parser.Max_Args`. */
  const MaxArgs: nat := 16

  /** The keywords `synchronize` stops in front of. */
  const StatementStarts: set<Tokens.TokenKind> :=
    {Tokens.Class, Tokens.Fun, Tokens.Var, Tokens.For, Tokens.If, Tokens.While, Tokens.Print, Tokens.Return}

  /** The six binary precedence levels, loosest first. */
  datatype Level = OrLevel | AndLevel | EqualityLevel | ComparisonLevel | AdditionLevel | MultiplicationLevel

  /** The operator kinds a level matches, in the order its `match` call lists them. */
  function Operators(level: Level): (kinds: set<Tokens.TokenKind>)
    ensures Tokens.Semicolon !in kinds
  {
    match level
    case OrLevel => {Tokens.Or}
    case AndLevel => {Tokens.And}
    case EqualityLevel => {Tokens.BangEqual, Tokens.EqualEqual}
    case ComparisonLevel => {Tokens.Greater, Tokens.GreaterEqual, Tokens.Less, Tokens.LessEqual}
    case AdditionLevel => {Tokens.Minus, Tokens.Plus}
    case MultiplicationLevel => {Tokens.Slash, Tokens.Star}
  }

  function LevelIndex(level: Level): nat {
    match level
    case OrLevel => 0
    case AndLevel => 1
    case EqualityLevel => 2
    case ComparisonLevel => 3
    case AdditionLevel => 4
    case MultiplicationLevel => 5
  }

  /** The level whose parse gives this level's operands (multiplication's operands are unaries). */
  function Tighter(level: Level): (next: Level)
    requires level != MultiplicationLevel
    ensures LevelIndex(next) == LevelIndex(level) + 1
  {
    match level
    case OrLevel => AndLevel
    case AndLevel => EqualityLevel
    case EqualityLevel => ComparisonLevel
    case ComparisonLevel => AdditionLevel
    case AdditionLevel => MultiplicationLevel
  }

  /** `and`/`or` build Logical nodes, the other levels Binary ones. */
  function Combine(level: Level, left: Expr, operator: Token, right: Expr): Expr {
    if level == OrLevel || level == AndLevel then Logical(left, operator, right) else Binary(left, operator, right)
  }

  /** The tree of the loop that folds `first op1 e1 op2 e2 …` into `result`, one operator at a time from the left. */
  function Fold(level: Level, first: Expr, operators: seq<Token>, operands: seq<Expr>): Expr
    requires |operators| == |operands|
    decreases |operators|
  {
    if operators == [] then first
    else Fold(level, Combine(level, first, operators[0], operands[0]), operators[1..], operands[1..])
  }

  /**
   * Left association: the last operator of a chain is the root, with the
   * fold of everything before it as its left operand; so `a-b-c` is
   * `(a-b)-c`.
   */
  lemma {:induction false} FoldLastAtRoot(level: Level, first: Expr, operators: seq<Token>, operands: seq<Expr>)
    requires |operators| == |operands| > 0
    ensures var n := |operators| - 1;
      Fold(level, first, operators, operands) ==
        Combine(level, Fold(level, first, operators[..n], operands[..n]), operators[n], operands[n])
    decreases |operators|
  {
    if |operators| > 1 {
      var n := |operators| - 1;
      FoldLastAtRoot(level, Combine(level, first, operators[0], operands[0]), operators[1..], operands[1..]);
      assert operators[1..][..n - 1] == operators[..n][1..];
      assert operands[1..][..n - 1] == operands[..n][1..];
    }
  }

  /** The level whose operators include `kind`, as a LevelIndex; 6 for a kind no level matches. */
  function OperatorIndex(kind: Tokens.TokenKind): (i: nat)
    ensures i <= 6
  {
    if kind == Tokens.Or then 0
    else if kind == Tokens.And then 1
    else if kind in {Tokens.BangEqual, Tokens.EqualEqual} then 2
    else if kind in {Tokens.Greater, Tokens.GreaterEqual, Tokens.Less, Tokens.LessEqual} then 3
    else if kind in {Tokens.Minus, Tokens.Plus} then 4
    else if kind in {Tokens.Slash, Tokens.Star} then 5
    else 6
  }

  /** Each operator kind belongs to exactly one level, the one OperatorIndex names. */
  lemma OperatorLevel(kind: Tokens.TokenKind, level: Level)
    ensures kind in Operators(level) <==> OperatorIndex(kind) == LevelIndex(level)
  {
  }

  /**
   * How loosely the root of a tree binds: the level of a Binary or Logical
   * root's operator, and 6, tighter than every level, for any other node.
   */
  function RootIndex(e: Expr): nat {
    match e
    case Binary(_, operator, _) => OperatorIndex(operator.kind)
    case Logical(_, operator, _) => OperatorIndex(operator.kind)
    case _ => 6
  }

  /** An operand of a level: its root is no operator of that level or a looser one. */
  predicate TightFor(level: Level, e: Expr) {
    LevelIndex(level) < RootIndex(e)
  }

  /** A fold with at least one operator has one of the level's operators at its root. */
  lemma FoldRootIndex(level: Level, first: Expr, operators: seq<Token>, operands: seq<Expr>)
    requires |operators| == |operands| > 0
    requires forall t :: t in operators ==> t.kind in Operators(level)
    ensures RootIndex(Fold(level, first, operators, operands)) == LevelIndex(level)
  {
    FoldLastAtRoot(level, first, operators, operands);
    assert operators[|operators| - 1] in operators;
    OperatorLevel(operators[|operators| - 1].kind, level);
  }

  /** A chain of a level: the level's own operators between operands that bind tighter than it. */
  predicate IsChain(level: Level, first: Expr, operators: seq<Token>, operands: seq<Expr>) {
    |operators| == |operands| && TightFor(level, first) &&
    (forall t :: t in operators ==> t.kind in Operators(level)) &&
    (forall e :: e in operands ==> TightFor(level, e))
  }

  /**
   * A fold of operands that are tight for their level comes apart only one
   * way: the tree fixes the first operand, the operators and the operands.
   * So `a - b - c` is never the right-nested `a - (b - c)`: that tree would
   * need the operand `b - c`, whose root is the level's own operator.
   */
  lemma {:induction false} FoldUnique(level: Level, first1: Expr, operators1: seq<Token>, operands1: seq<Expr>,
                                      first2: Expr, operators2: seq<Token>, operands2: seq<Expr>)
    requires IsChain(level, first1, operators1, operands1) && IsChain(level, first2, operators2, operands2)
    requires Fold(level, first1, operators1, operands1) == Fold(level, first2, operators2, operands2)
    ensures first1 == first2 && operators1 == operators2 && operands1 == operands2
    decreases |operators1|
  {
    if operators1 == [] && operators2 == [] {
    } else if operators1 == [] {
      FoldRootIndex(level, first2, operators2, operands2);
    } else if operators2 == [] {
      FoldRootIndex(level, first1, operators1, operands1);
    } else {
      var n1, n2 := |operators1| - 1, |operators2| - 1;
      FoldLastAtRoot(level, first1, operators1, operands1);
      FoldLastAtRoot(level, first2, operators2, operands2);
      CombineInjective(level, Fold(level, first1, operators1[..n1], operands1[..n1]), operators1[n1], operands1[n1],
                       Fold(level, first2, operators2[..n2], operands2[..n2]), operators2[n2], operands2[n2]);
      ChainPrefix(level, first1, operators1, operands1);
      ChainPrefix(level, first2, operators2, operands2);
      FoldUnique(level, first1, operators1[..n1], operands1[..n1], first2, operators2[..n2], operands2[..n2]);
    }
  }

  /**
   * `result` folds a chain of the level: the level's own operators between
   * operands that bind tighter than it, so only the operators put a node
   * of the level at the root.
   */
  predicate FoldsChain(level: Level, first: Expr, operators: seq<Token>, operands: seq<Expr>, result: Expr) {
    IsChain(level, first, operators, operands) && result == Fold(level, first, operators, operands) &&
    LevelIndex(level) <= RootIndex(result)
  }

  /** One more operator of the level and a tight operand extend a chain, its fold taking the new operator as root. */
  lemma ChainStep(level: Level, first: Expr, operators: seq<Token>, operands: seq<Expr>, result: Expr,
                  operator: Token, operand: Expr)
    requires FoldsChain(level, first, operators, operands, result)
    requires operator.kind in Operators(level) && TightFor(level, operand)
    ensures FoldsChain(level, first, operators + [operator], operands + [operand], Combine(level, result, operator, operand))
  {
    FoldLastAtRoot(level, first, operators + [operator], operands + [operand]);
    assert (operators + [operator])[..|operators|] == operators;
    assert (operands + [operand])[..|operands|] == operands;
    OperatorLevel(operator.kind, level);
  }

  lemma CombineInjective(level: Level, left1: Expr, operator1: Token, right1: Expr,
                         left2: Expr, operator2: Token, right2: Expr)
    requires Combine(level, left1, operator1, right1) == Combine(level, left2, operator2, right2)
    ensures left1 == left2 && operator1 == operator2 && right1 == right2
  {
    if level == OrLevel || level == AndLevel {
      assert Logical(left1, operator1, right1) == Logical(left2, operator2, right2);
    } else {
      assert Binary(left1, operator1, right1) == Binary(left2, operator2, right2);
    }
  }

  /** A chain without its last operator and operand is still a chain of the level. */
  lemma ChainPrefix(level: Level, first: Expr, operators: seq<Token>, operands: seq<Expr>)
    requires IsChain(level, first, operators, operands) && |operators| > 0
    ensures var n := |operators| - 1;
      operators == operators[..n] + [operators[n]] && operands == operands[..n] + [operands[n]] &&
      IsChain(level, first, operators[..n], operands[..n]) &&
      operators[n].kind in Operators(level) && TightFor(level, operands[n])
  {
    var n := |operators| - 1;
    assert forall e :: e in operands[..n] ==> e in operands;
    assert forall t :: t in operators[..n] ==> t in operators;
  }

  /**
   * The position of the first `;` at or after `from`, or the length of `ts`
   * when there is none; an expression ends before it.
   */
  function FirstSemicolon(ts: seq<Token>, from: nat): (p: nat)
    ensures from <= |ts| ==> from <= p <= |ts|
    ensures from > |ts| ==> p == |ts|
    ensures p < |ts| ==> ts[p].kind == Tokens.Semicolon
    decreases |ts| - from
  {
    if from >= |ts| then |ts| else if ts[from].kind == Tokens.Semicolon then from else FirstSemicolon(ts, from + 1)
  }

  /** No token between `from` and the first `;` after it is a `;`. */
  lemma {:induction false} BeforeFirstSemicolon(ts: seq<Token>, from: nat, k: nat)
    requires from <= k < FirstSemicolon(ts, from)
    ensures k < |ts| && ts[k].kind != Tokens.Semicolon
    decreases k - from
  {
    if from < k {
      BeforeFirstSemicolon(ts, from + 1, k);
    }
  }

  /** Starting anywhere up to the first `;` finds the same `;`. */
  lemma {:induction false} FirstSemicolonSkip(ts: seq<Token>, a: nat, b: nat)
    requires a <= b <= FirstSemicolon(ts, a)
    ensures FirstSemicolon(ts, b) == FirstSemicolon(ts, a)
    decreases b - a
  {
    if a < b {
      FirstSemicolonSkip(ts, a + 1, b);
    }
  }

  /** A `;` no later than the first `;` from `from` is that one. */
  lemma AtFirstSemicolon(ts: seq<Token>, from: nat, p: nat)
    requires from <= p <= FirstSemicolon(ts, from) && p < |ts| && ts[p].kind == Tokens.Semicolon
    ensures p == FirstSemicolon(ts, from)
  {
    if p < FirstSemicolon(ts, from) {
      BeforeFirstSemicolon(ts, from, p);
    }
  }

  /** Passing a token other than `;` keeps the first `;` ahead, and looking from past it finds the same one. */
  lemma PastToken(ts: seq<Token>, a: nat, c: nat)
    requires a <= c <= FirstSemicolon(ts, a) && c < |ts| && ts[c].kind != Tokens.Semicolon
    ensures c + 1 <= FirstSemicolon(ts, a) && FirstSemicolon(ts, c + 1) == FirstSemicolon(ts, a)
  {
    FirstSemicolonSkip(ts, a, c);
  }

  /** A token other than `;` at or before a `;` (or the end) lies before it. */
  lemma NotPastSemicolon(ts: seq<Token>, c: nat, limit: nat)
    requires c <= limit && (limit == |ts| || (limit < |ts| && ts[limit].kind == Tokens.Semicolon))
    requires c < |ts| && ts[c].kind != Tokens.Semicolon
    ensures c < limit
  {
  }

  /** The literal a NUMBER or STRING token carries, as an expression literal. */
  function TokenLiteral(lit: Tokens.Literal): (v: LiteralValue)
    ensures lit.NumberLit? ==> v == LNumber(lit.r)
    ensures lit.StringLit? ==> v == LString(lit.text)
    ensures lit.NoLiteral? ==> v == LNil
  {
    match lit
    case NoLiteral => LNil
    case NumberLit(r) => LNumber(r)
    case StringLit(t) => LString(t)
  }

  /**
   * Every `break` of a statement parsed with `inLoop` is either inside a
   * `while` body or, when `inLoop` holds, outside every loop; a function or
   * method body starts again outside any loop.
   */
  predicate BreaksInLoops(s: Stmt, inLoop: bool)
    decreases s, 0
  {
    match s
    case Break(_) => inLoop
    case Block(ss) => forall st :: st in ss ==> BreaksInLoops(st, inLoop)
    case If(_, t, e) => BreaksInLoops(t, inLoop) && (e.Some? ==> BreaksInLoops(e.value, inLoop))
    case While(_, body) => BreaksInLoops(body, true)
    case Function(d) => BodyBreaksInLoops(d)
    case Class(_, ms, _) => forall d :: d in ms ==> BodyBreaksInLoops(d)
    case _ => true
  }

  predicate BodyBreaksInLoops(d: FunDecl)
    decreases d, 1
  {
    forall st :: st in d.body ==> BreaksInLoops(st, false)
  }

  /**
   * The while loop a `for` statement stands for: the body gets the
   * increment in a two-statement block only when there is one, a missing
   * test is `true`, and the loop is wrapped in a block with the initializer
   * only when there is one.
   */
  function Desugared(init: Option<Stmt>, test: Option<Expr>, post: Option<Expr>, body: Stmt): Stmt {
    var loopBody := if post.Some? then Stmt.Block([body, Stmt.Expression(post.value)]) else body;
    var loop := While(if test.Some? then test.value else Literal(LBool(true)), loopBody);
    if init.Some? then Stmt.Block([init.value, loop]) else loop
  }

  /** A desugared `for` keeps its body's breaks inside the loop it builds, and adds none. */
  lemma DesugaredBreaks(init: Option<Stmt>, test: Option<Expr>, post: Option<Expr>, body: Stmt, inLoop: bool)
    requires BreaksInLoops(body, true)
    requires init.Some? ==> init.value.Var? || init.value.Expression?
    ensures BreaksInLoops(Desugared(init, test, post, body), inLoop)
  {
    var loopBody := if post.Some? then Stmt.Block([body, Stmt.Expression(post.value)]) else body;
    if post.Some? {
      assert forall st :: st in loopBody.statements ==> st == body || st == loopBody.statements[1];
    }
    var loop := While(if test.Some? then test.value else Literal(LBool(true)), loopBody);
    assert BreaksInLoops(loop, inLoop);
    if init.Some? {
      assert BreaksInLoops(init.value, inLoop);
      assert forall st :: st in [init.value, loop] ==> st == init.value || st == loop;
    }
  }

  /** The statement kind each first token leads `statement` to build. */
  predicate StartsStatement(first: Tokens.TokenKind, s: Stmt) {
    if first == Tokens.For then s.Block? || s.While?
    else if first == Tokens.If then s.If?
    else if first == Tokens.Print then s.Print?
    else if first == Tokens.Return then s.Return?
    else if first == Tokens.While then s.While?
    else if first == Tokens.Break then s.Break?
    else if first == Tokens.LeftBrace then s.Block?
    else s.Expression?
  }

  /** The binary operators `primary` reports as missing their left operand. */
  const OperatorsWithoutLeft: set<Tokens.TokenKind> :=
    {Tokens.Plus, Tokens.Slash, Tokens.Star, Tokens.Equal, Tokens.Greater, Tokens.Less}

  /**
   * What `primary` gives when its first token t is none of the names,
   * keyword values and literals: `()` stands for `(nil)`, a binary operator
   * missing its left operand has its own message, and EOF is unanticipated
   * input.
   */
  predicate PrimaryFallback(t: Token, next: Tokens.TokenKind, r: Result<Expr, ParseError>) {
    (t.kind == Tokens.LeftParen && next == Tokens.RightParen ==> r == Ok(Grouping(Literal(LNil)))) &&
    (t.kind in OperatorsWithoutLeft ==> r == Err(ParseError(t, MissingLeftOperand))) &&
    (t.kind == Tokens.Eof ==> r == Err(ParseError(t, UnanticipatedInput)))
  }

  class Parser {
    const tokens: seq<Token>
    var current: nat
    var errors: seq<ParseError>
    var nextId: nat

    /** The token list ends with EOF and `current` never passes it. */
    ghost predicate Valid()
      reads this`current
    {
      |tokens| > 0 && tokens[|tokens| - 1].kind == Tokens.Eof && current < |tokens|
    }

    constructor (tokens: seq<Token>)
      requires |tokens| > 0 && tokens[|tokens| - 1].kind == Tokens.Eof
      ensures Valid() && this.tokens == tokens && current == 0 && errors == [] && nextId == 0
    {
      this.tokens := tokens;
      current := 0;
      errors := [];
      nextId := 0;
    }

    /** A `;` is at `limit`, or `limit` is past the last token: no expression reaches beyond it. */
    predicate SemicolonAt(limit: nat) {
      limit == |tokens| || (limit < |tokens| && tokens[limit].kind == Tokens.Semicolon)
    }

    /**
     * Which clauses the `for` whose clauses start at `start` (just after its
     * `(`) has, read off the tokens: no initializer exactly when the first
     * token is `;`; no condition exactly when the token after the first `;`
     * is another `;`; no increment exactly when the token after the second
     * `;` is `)`.
     */
    ghost predicate ClausesPresent(start: nat, init: Option<Stmt>, test: Option<Expr>, post: Option<Expr>) {
      var condition := FirstSemicolon(tokens, start) + 1;
      var increment := FirstSemicolon(tokens, condition) + 1;
      increment < |tokens| &&
      (init.None? <==> tokens[start].kind == Tokens.Semicolon) &&
      (test.None? <==> tokens[condition].kind == Tokens.Semicolon) &&
      (post.None? <==> tokens[increment].kind == Tokens.RightParen)
    }

    function Peek(): Token
      reads this`current
      requires Valid()
    {
      tokens[current]
    }

    /** The last consumed token; at position 0 Python's index -1 gives the last token. */
    function Previous(): Token
      reads this`current
      requires Valid()
    {
      if current == 0 then tokens[|tokens| - 1] else tokens[current - 1]
    }

    predicate IsAtEnd()
      reads this`current
      requires Valid()
    {
      Peek().kind == Tokens.Eof
    }

    /** `check` is false at EOF whatever kind is asked for. */
    predicate Check(kind: Tokens.TokenKind)
      reads this`current
      requires Valid()
    {
      !IsAtEnd() && Peek().kind == kind
    }

    /** `advance` never moves past the EOF token and returns the last consumed token. */
    method Advance() returns (t: Token)
      requires Valid()
      modifies this`current
      ensures Valid()
      ensures current == if old(IsAtEnd()) then old(current) else old(current) + 1
      ensures t == Previous()
      ensures !old(IsAtEnd()) ==> t == old(Peek())
    {
      if !IsAtEnd() {
        current := current + 1;
      }
      t := Previous();
    }

    /** `match`: consume one token exactly when the current kind is one of `kinds` (the order they are tried in cannot matter). */
    method Match(kinds: set<Tokens.TokenKind>) returns (matched: bool)
      requires Valid()
      modifies this`current
      ensures Valid()
      ensures matched <==> !old(IsAtEnd()) && old(Peek()).kind in kinds
      ensures current == if matched then old(current) + 1 else old(current)
      ensures matched ==> Previous() == old(Peek())
    {
      if !IsAtEnd() && Peek().kind in kinds {
        var _ := Advance();
        return true;
      }
      return false;
    }

    /** `consume`: the expected token, or a ParseError at the current token. */
    method Consume(kind: Tokens.TokenKind, message: Message) returns (r: Result<Token, ParseError>)
      requires Valid()
      modifies this`current
      ensures Valid()
      ensures r.Ok? <==> old(Check(kind))
      ensures r.Ok? ==> r.value == old(Peek()) && r.value.kind == kind && current == old(current) + 1
      ensures r.Err? ==> r.error == ParseError(Peek(), message) && current == old(current)
    {
      if Check(kind) {
        var t := Advance();
        return Ok(t);
      }
      return Err(ParseError(Peek(), message));
    }

    /**
     * `synchronize`: step over the offending token, then stop at EOF, just
     * after a `;` or just before a statement keyword, whichever comes first.
     */
    method Synchronize()
      requires Valid()
      modifies this`current
      ensures Valid() && old(current) <= current
      ensures !old(IsAtEnd()) ==> old(current) < current
      ensures IsAtEnd() || (current > old(current) && Previous().kind == Tokens.Semicolon) ||
        (current > old(current) && Peek().kind in StatementStarts)
      ensures forall k :: old(current) <= k < current - 1 ==> tokens[k].kind != Tokens.Semicolon
      ensures forall j :: old(current) < j < current ==> tokens[j].kind !in StatementStarts
    {
      var begin := current;
      var _ := Advance();
      while !IsAtEnd()
        invariant Valid() && old(current) == begin <= current
        invariant !old(IsAtEnd()) ==> current == old(current) + 1 || old(current) + 1 < current
        invariant old(IsAtEnd()) ==> current == old(current)
        invariant forall k :: old(current) <= k < current - 1 ==> tokens[k].kind != Tokens.Semicolon
        invariant forall j :: old(current) < j < current ==> tokens[j].kind !in StatementStarts
        decreases |tokens| - current
      {
        if Previous().kind == Tokens.Semicolon {
          return;
        }
        if Peek().kind in StatementStarts {
          return;
        }
        var _ := Advance();
      }
    }

    method FreshId() returns (id: nat)
      modifies this`nextId
      ensures id == old(nextId) && nextId == old(nextId) + 1
    {
      id := nextId;
      nextId := nextId + 1;
    }

    /**
     * `parse`: declarations until EOF. A declaration that failed leaves no
     * statement; its error is in `errors`.
     */
    method Parse() returns (statements: seq<Stmt>)
      requires Valid()
      modifies this`current, this`errors, this`nextId
      ensures Valid() && IsAtEnd()
      ensures |old(errors)| <= |errors|
      ensures forall s :: s in statements ==> BreaksInLoops(s, false)
    {
      statements := [];
      while !IsAtEnd()
        invariant Valid()
        invariant |old(errors)| <= |errors|
        invariant forall s :: s in statements ==> BreaksInLoops(s, false)
        decreases |tokens| - current
      {
        var d := Declaration(false);
        if d.Some? {
          statements := statements + [d.value];
        }
      }
    }

    /**
     * `declaration`: a failed declaration reports its error, synchronizes
     * and yields no statement. Started before EOF, it always consumes.
     */
    method Declaration(inLoop: bool) returns (r: Option<Stmt>)
      requires Valid()
      modifies this`current, this`errors, this`nextId
      ensures Valid() && old(current) <= current
      ensures !old(IsAtEnd()) ==> old(current) < current
      ensures |old(errors)| <= |errors|
      ensures r.None? ==> |old(errors)| < |errors|
      ensures r.Some? ==> BreaksInLoops(r.value, inLoop)
      decreases |tokens| - current, 34
    {
      var d := DeclarationBody(inLoop);
      if d.Err? {
        errors := errors + [d.error];
        Synchronize();
        return None;
      }
      return Some(d.value);
    }

    /** The body of `declaration`'s `try`: class, fun and var declarations, else a statement. */
    method DeclarationBody(inLoop: bool) returns (r: Result<Stmt, ParseError>)
      requires Valid()
      modifies this`current, this`errors, this`nextId
      ensures Valid() && old(current) <= current
      ensures |old(errors)| <= |errors|
      ensures r.Ok? ==> old(current) < current && BreaksInLoops(r.value, inLoop)
      ensures r.Ok? && old(Peek()).kind == Tokens.Class ==> r.value.Class?
      ensures r.Ok? && old(Peek()).kind == Tokens.Fun ==> r.value.Function?
      ensures r.Ok? && old(Peek()).kind == Tokens.Var ==> r.value.Var?
      decreases |tokens| - current, 33
    {
      if Check(Tokens.Class) {
        var _ := Advance();
        r := ClassDecl();
        return;
      }
      if Check(Tokens.Fun) {
        var _ := Advance();
        var f := Function(AFunction);
        if f.Err? {
          return Err(f.error);
        }
        return Ok(Stmt.Function(f.value));
      }
      if Check(Tokens.Var) {
        var _ := Advance();
        r := VarStmt();
        return;
      }
      r := Statement(inLoop);
    }

    /** `statement`: the first token chooses the kind of statement; anything else is an expression statement. */
    method Statement(inLoop: bool) returns (r: Result<Stmt, ParseError>)
      requires Valid()
      modifies this`current, this`errors, this`nextId
      ensures Valid() && old(current) <= current
      ensures |old(errors)| <= |errors|
      ensures r.Ok? ==> old(current) < current && BreaksInLoops(r.value, inLoop)
      ensures r.Ok? ==> StartsStatement(old(Peek()).kind, r.value)
      decreases |tokens| - current, 32
    {
      if Check(Tokens.For) {
        var _ := Advance();
        ghost var init, test, post, body;
        r, init, test, post, body := ForStmt(inLoop);
        return;
      }
      if Check(Tokens.If) {
        var _ := Advance();
        r := IfStmt(inLoop);
        return;
      }
      if Check(Tokens.Print) {
        var _ := Advance();
        r := PrintStmt();
        return;
      }
      if Check(Tokens.Return) {
        var _ := Advance();
        r := ReturnStmt();
        return;
      }
      if Check(Tokens.While) {
        var _ := Advance();
        r := WhileStmt();
        return;
      }
      if Check(Tokens.Break) {
        var _ := Advance();
        r := BreakStmt(inLoop);
        return;
      }
      if Check(Tokens.LeftBrace) {
        var _ := Advance();
        var b := Block(inLoop);
        if b.Err? {
          return Err(b.error);
        }
        return Ok(Stmt.Block(b.value));
      }
      r := ExprStmt();
    }

    /** `block`, entered after `{`: declarations up to the closing `}`. */
    method Block(inLoop: bool) returns (r: Result<seq<Stmt>, ParseError>)
      requires Valid()
      modifies this`current, this`errors, this`nextId
      ensures Valid() && old(current) <= current
      ensures |old(errors)| <= |errors|
      ensures r.Ok? ==> old(current) < current && Previous().kind == Tokens.RightBrace
      ensures r.Ok? ==> forall s :: s in r.value ==> BreaksInLoops(s, inLoop)
      ensures r.Err? ==> r.error.message == BlockEnd
      decreases |tokens| - current, 35
    {
      var statements: seq<Stmt> := [];
      while !Check(Tokens.RightBrace) && !IsAtEnd()
        invariant Valid() && old(current) <= current
        invariant |old(errors)| <= |errors|
        invariant forall s :: s in statements ==> BreaksInLoops(s, inLoop)
        decreases |tokens| - current
      {
        var d := Declaration(inLoop);
        if d.Some? {
          statements := statements + [d.value];
        }
      }
      var close := Consume(Tokens.RightBrace, BlockEnd);
      if close.Err? {
        return Err(close.error);
      }
      return Ok(statements);
    }

    /** `class_decl`, entered after `class`: name, optional `< superclass`, then methods in braces. */
    method ClassDecl() returns (r: Result<Stmt, ParseError>)
      requires Valid()
      modifies this`current, this`errors, this`nextId
      ensures Valid() && old(current) <= current
      ensures |old(errors)| <= |errors|
      ensures r.Ok? ==> old(current) < current && r.value.Class? && r.value.name.kind == Tokens.Identifier
      ensures r.Ok? ==> r.value.superclass.Some? ==> r.value.superclass.value.name.kind == Tokens.Identifier
      ensures r.Ok? ==> BreaksInLoops(r.value, false)
      decreases |tokens| - current, 30
    {
      var name := Consume(Tokens.Identifier, ClassName);
      if name.Err? {
        return Err(name.error);
      }
      var superclass := Superclass();
      if superclass.Err? {
        return Err(superclass.error);
      }
      var open := Consume(Tokens.LeftBrace, ClassBodyStart);
      if open.Err? {
        return Err(open.error);
      }
      var methods := ClassBody();
      if methods.Err? {
        return Err(methods.error);
      }
      return Ok(Class(name.value, methods.value, superclass.value));
    }

    /** The optional `< superclass` of `class_decl`; the superclass is a variable reference. */
    method Superclass() returns (r: Result<Option<VarRef>, ParseError>)
      requires Valid()
      modifies this`current, this`nextId
      ensures Valid() && old(current) <= current
      ensures r.Ok? ==> (r.value.Some? <==> old(Check(Tokens.Less)))
      ensures r.Ok? && r.value.Some? ==> r.value.value.name.kind == Tokens.Identifier
    {
      var less := Match({Tokens.Less});
      if !less {
        return Ok(None);
      }
      var name := Consume(Tokens.Identifier, SuperclassName);
      if name.Err? {
        return Err(name.error);
      }
      var id := FreshId();
      return Ok(Some(VarRef(id, Previous())));
    }

    /** The rest of `class_decl`, entered after `{`: methods up to the closing `}`. */
    method ClassBody() returns (r: Result<seq<FunDecl>, ParseError>)
      requires Valid()
      modifies this`current, this`errors, this`nextId
      ensures Valid() && old(current) <= current
      ensures |old(errors)| <= |errors|
      ensures r.Ok? ==> old(current) < current && Previous().kind == Tokens.RightBrace
      ensures r.Ok? ==> forall d :: d in r.value ==> d.name.kind == Tokens.Identifier && BodyBreaksInLoops(d)
      decreases |tokens| - current, 31
    {
      var methods: seq<FunDecl> := [];
      while !IsAtEnd() && !Check(Tokens.RightBrace)
        invariant Valid() && old(current) <= current
        invariant |old(errors)| <= |errors|
        invariant forall d :: d in methods ==> d.name.kind == Tokens.Identifier && BodyBreaksInLoops(d)
        decreases |tokens| - current
      {
        var f := Function(AMethod);
        if f.Err? {
          return Err(f.error);
        }
        methods := methods + [f.value];
      }
      var close := Consume(Tokens.RightBrace, ClassBodyEnd);
      if close.Err? {
        return Err(close.error);
      }
      return Ok(methods);
    }

    /**
     * `function`: name, parenthesised parameters, then a block body parsed
     * outside any loop. The limit check runs before each parameter is
     * added and tests `> Max_Args`, so up to 17 parameters pass.
     */
    method Function(kind: Declared) returns (r: Result<FunDecl, ParseError>)
      requires Valid()
      modifies this`current, this`errors, this`nextId
      ensures Valid() && old(current) <= current
      ensures |old(errors)| <= |errors|
      ensures r.Ok? ==> old(current) < current && r.value.name.kind == Tokens.Identifier
      ensures r.Ok? ==> |r.value.params| <= MaxArgs + 1
      ensures r.Ok? ==> forall p :: p in r.value.params ==> p.kind == Tokens.Identifier
      ensures r.Ok? ==> BodyBreaksInLoops(r.value)
      decreases |tokens| - current, 30
    {
      var name := Consume(Tokens.Identifier, FunctionName(kind));
      if name.Err? {
        return Err(name.error);
      }
      var open := Consume(Tokens.LeftParen, ParenAfterName(kind));
      if open.Err? {
        return Err(open.error);
      }
      var parameters: seq<Token> := [];
      while !Check(Tokens.RightParen)
        invariant Valid() && old(current) < current && |parameters| <= MaxArgs + 1 && errors == old(errors)
        invariant forall p :: p in parameters ==> p.kind == Tokens.Identifier
        decreases |tokens| - current
      {
        if |parameters| > MaxArgs {
          return Err(ParseError(Peek(), TooManyParameters));
        }
        var p := Consume(Tokens.Identifier, ParameterName);
        if p.Err? {
          return Err(p.error);
        }
        parameters := parameters + [p.value];
        var comma := Match({Tokens.Comma});
        if !comma {
          break;
        }
      }
      var close := Consume(Tokens.RightParen, ParameterListEnd);
      if close.Err? {
        return Err(close.error);
      }
      var brace := Consume(Tokens.LeftBrace, FunctionBody(kind));
      if brace.Err? {
        return Err(brace.error);
      }
      var body := Block(false);
      if body.Err? {
        return Err(body.error);
      }
      return Ok(FunDecl(name.value, parameters, body.value));
    }

    /** `var_stmt`, entered after `var`: a name, an optional initializer, a `;`. */
    method VarStmt() returns (r: Result<Stmt, ParseError>)
      requires Valid()
      modifies this`current, this`nextId
      ensures Valid() && old(current) <= current
      ensures r.Ok? ==> old(current) < current && r.value.Var? && r.value.name.kind == Tokens.Identifier
      ensures r.Ok? ==> (r.value.initializer.Some? <==> old(current) + 1 < |tokens| && tokens[old(current) + 1].kind == Tokens.Equal)
      ensures r.Ok? ==> current == FirstSemicolon(tokens, old(current)) + 1
      decreases |tokens| - current, 30
    {
      var name := Consume(Tokens.Identifier, VariableName);
      if name.Err? {
        return Err(name.error);
      }
      NotPastSemicolon(tokens, current - 1, FirstSemicolon(tokens, old(current)));
      var initializer := None;
      var eq := Match({Tokens.Equal});
      if eq {
        NotPastSemicolon(tokens, current - 1, FirstSemicolon(tokens, old(current)));
        var e := Expression(FirstSemicolon(tokens, old(current)));
        if e.Err? {
          return Err(e.error);
        }
        initializer := Some(e.value);
      }
      var semi := Consume(Tokens.Semicolon, VarSemicolon);
      if semi.Err? {
        return Err(semi.error);
      }
      AtFirstSemicolon(tokens, old(current), current - 1);
      return Ok(Var(name.value, initializer));
    }

    /**
     * `for_stmt`, entered after `for`, desugared into a while loop: the
     * body gets the increment in a two-statement block only when there is
     * one, a missing test is `true`, and the loop is wrapped in a block
     * with the initializer only when there is one.
     */
    method ForStmt(inLoop: bool) returns (r: Result<Stmt, ParseError>,
                                          ghost init: Option<Stmt>, ghost test: Option<Expr>,
                                          ghost post: Option<Expr>, ghost body: Stmt)
      requires Valid()
      modifies this`current, this`errors, this`nextId
      ensures Valid() && old(current) <= current
      ensures |old(errors)| <= |errors|
      ensures r.Ok? ==> old(current) < current && BreaksInLoops(r.value, inLoop)
      ensures r.Ok? ==> r.value == Desugared(init, test, post, body)
      ensures r.Ok? ==> ClausesPresent(old(current) + 1, init, test, post)
      ensures r.Ok? && init.Some? ==> init.value.Var? || init.value.Expression?
      decreases |tokens| - current, 30
    {
      init, test, post, body := None, None, None, Stmt.Expression(Literal(LNil));
      var open := Consume(Tokens.LeftParen, ForParen);
      if open.Err? {
        return Err(open.error), init, test, post, body;
      }
      var clauses := ForClauses();
      if clauses.Err? {
        return Err(clauses.error), init, test, post, body;
      }
      var b := Statement(true);
      if b.Err? {
        return Err(b.error), init, test, post, body;
      }
      var (initStmt, testExpr, postExpr) := clauses.value;
      init, test, post, body := initStmt, testExpr, postExpr, b.value;
      DesugaredBreaks(init, test, post, body, inLoop);
      r := Ok(Desugared(initStmt, testExpr, postExpr, b.value));
    }

    /** The clauses of a `for` between its parentheses, up to and including the `)`:
        an initializer (a `var` declaration, an expression statement or just `;`),
        an optional condition and `;`, and an optional increment. */
    method ForClauses() returns (r: Result<(Option<Stmt>, Option<Expr>, Option<Expr>), ParseError>)
      requires Valid()
      modifies this`current, this`errors, this`nextId
      ensures Valid() && old(current) <= current
      ensures |old(errors)| <= |errors|
      ensures r.Ok? ==> old(current) < current
      ensures r.Ok? && r.value.0.Some? ==> r.value.0.value.Var? || r.value.0.value.Expression?
      ensures r.Ok? ==> ClausesPresent(old(current), r.value.0, r.value.1, r.value.2)
      decreases |tokens| - current, 32
    {
      var init := ForInitializer();
      if init.Err? {
        return Err(init.error);
      }
      ghost var condition := current;
      var test := ForCondition();
      if test.Err? {
        return Err(test.error);
      }
      ghost var increment := current;
      var postExpr := None;
      if !Check(Tokens.RightParen) {
        var p := Expression(|tokens|);
        if p.Err? {
          return Err(p.error);
        }
        postExpr := Some(p.value);
      }
      var close := Consume(Tokens.RightParen, ForClauseEnd);
      if close.Err? {
        return Err(close.error);
      }
      assert increment < |tokens| && (postExpr.None? <==> tokens[increment].kind == Tokens.RightParen);
      r := Ok((init.value, test.value, postExpr));
    }

    /** The condition clause of a `for`, up to and including its `;`; a bare `;` leaves it out. */
    method ForCondition() returns (r: Result<Option<Expr>, ParseError>)
      requires Valid()
      modifies this`current, this`nextId
      ensures Valid() && old(current) <= current
      ensures r.Ok? ==> current == FirstSemicolon(tokens, old(current)) + 1
      ensures r.Ok? ==> (r.value.None? <==> tokens[old(current)].kind == Tokens.Semicolon)
      decreases |tokens| - current, 31
    {
      var test := None;
      if !Check(Tokens.Semicolon) {
        var t := Expression(FirstSemicolon(tokens, current));
        if t.Err? {
          return Err(t.error);
        }
        test := Some(t.value);
      }
      var semi := Consume(Tokens.Semicolon, ForConditionSemicolon);
      if semi.Err? {
        return Err(semi.error);
      }
      AtFirstSemicolon(tokens, old(current), current - 1);
      return Ok(test);
    }

    /** The initializer clause of a `for`, up to and including its `;`: a `var` declaration, an expression statement, or just `;`. */
    method ForInitializer() returns (r: Result<Option<Stmt>, ParseError>)
      requires Valid()
      modifies this`current, this`errors, this`nextId
      ensures Valid() && old(current) <= current
      ensures |old(errors)| <= |errors|
      ensures r.Ok? ==> current == FirstSemicolon(tokens, old(current)) + 1
      ensures r.Ok? ==> (r.value.None? <==> tokens[old(current)].kind == Tokens.Semicolon)
      ensures r.Ok? && r.value.Some? ==> r.value.value.Var? || r.value.value.Expression?
      decreases |tokens| - current, 31
    {
      ghost var start := current;
      var semi := Match({Tokens.Semicolon});
      if semi {
        AtFirstSemicolon(tokens, start, start);
        return Ok(None);
      }
      assert tokens[start].kind != Tokens.Semicolon;
      var isVar := Match({Tokens.Var});
      var s;
      if isVar {
        PastToken(tokens, start, start);
        s := VarStmt();
        assert s.Ok? ==> current == FirstSemicolon(tokens, start) + 1;
      } else {
        s := ExprStmt();
      }
      if s.Err? {
        return Err(s.error);
      }
      assert current == FirstSemicolon(tokens, start) + 1;
      return Ok(Some(s.value));
    }

    /** `if_stmt`, entered after `if`: an `else` binds to the nearest `if`. */
    method IfStmt(inLoop: bool) returns (r: Result<Stmt, ParseError>)
      requires Valid()
      modifies this`current, this`errors, this`nextId
      ensures Valid() && old(current) <= current
      ensures |old(errors)| <= |errors|
      ensures r.Ok? ==> old(current) < current && r.value.If? && BreaksInLoops(r.value, inLoop)
      decreases |tokens| - current, 30
    {
      var open := Consume(Tokens.LeftParen, IfParen);
      if open.Err? {
        return Err(open.error);
      }
      var condition := Expression(FirstSemicolon(tokens, current));
      if condition.Err? {
        return Err(condition.error);
      }
      var close := Consume(Tokens.RightParen, IfConditionEnd);
      if close.Err? {
        return Err(close.error);
      }
      var thenBranch := Statement(inLoop);
      if thenBranch.Err? {
        return Err(thenBranch.error);
      }
      var elseBranch := None;
      var hasElse := Match({Tokens.Else});
      if hasElse {
        var e := Statement(inLoop);
        if e.Err? {
          return Err(e.error);
        }
        elseBranch := Some(e.value);
      }
      return Ok(If(condition.value, thenBranch.value, elseBranch));
    }

    /** `print_stmt`, entered after `print`. */
    method PrintStmt() returns (r: Result<Stmt, ParseError>)
      requires Valid()
      modifies this`current, this`nextId
      ensures Valid() && old(current) <= current
      ensures r.Ok? ==> old(current) < current && r.value.Print? && Previous().kind == Tokens.Semicolon
      decreases |tokens| - current, 30
    {
      var e := Expression(FirstSemicolon(tokens, current));
      if e.Err? {
        return Err(e.error);
      }
      var semi := Consume(Tokens.Semicolon, ValueSemicolon);
      if semi.Err? {
        return Err(semi.error);
      }
      return Ok(Print(e.value));
    }

    /** `return_stmt`, entered after `return`: the value is absent exactly when `;` follows at once. */
    method ReturnStmt() returns (r: Result<Stmt, ParseError>)
      requires Valid()
      modifies this`current, this`nextId
      ensures Valid() && old(current) <= current
      ensures r.Ok? ==> old(current) < current && r.value.Return? && r.value.keyword == old(Previous())
      ensures r.Ok? ==> (r.value.value.None? <==> old(Check(Tokens.Semicolon)))
      decreases |tokens| - current, 30
    {
      var keyword := Previous();
      var value := None;
      if !Check(Tokens.Semicolon) {
        var e := Expression(FirstSemicolon(tokens, current));
        if e.Err? {
          return Err(e.error);
        }
        value := Some(e.value);
      }
      var semi := Consume(Tokens.Semicolon, ReturnSemicolon);
      if semi.Err? {
        return Err(semi.error);
      }
      return Ok(Return(keyword, value));
    }

    /** `while_stmt`, entered after `while`: the body is parsed inside a loop. */
    method WhileStmt() returns (r: Result<Stmt, ParseError>)
      requires Valid()
      modifies this`current, this`errors, this`nextId
      ensures Valid() && old(current) <= current
      ensures |old(errors)| <= |errors|
      ensures r.Ok? ==> old(current) < current && r.value.While? && BreaksInLoops(r.value.body, true)
      decreases |tokens| - current, 30
    {
      var open := Consume(Tokens.LeftParen, WhileParen);
      if open.Err? {
        return Err(open.error);
      }
      var condition := Expression(FirstSemicolon(tokens, current));
      if condition.Err? {
        return Err(condition.error);
      }
      var close := Consume(Tokens.RightParen, WhileConditionEnd);
      if close.Err? {
        return Err(close.error);
      }
      var body := Statement(true);
      if body.Err? {
        return Err(body.error);
      }
      return Ok(While(condition.value, body.value));
    }

    /**
     * `break_stmt`, entered after `break`: an error outside a loop; the
     * statement's token is the `;` consumed last.
     */
    method BreakStmt(inLoop: bool) returns (r: Result<Stmt, ParseError>)
      requires Valid()
      modifies this`current
      ensures Valid() && old(current) <= current
      ensures r.Ok? <==> inLoop && old(Check(Tokens.Semicolon))
      ensures r.Ok? ==> r.value == Stmt.Break(old(Peek())) && current == old(current) + 1
      ensures !inLoop ==> r == Err(ParseError(old(Previous()), BreakOutsideLoop))
    {
      if !inLoop {
        return Err(ParseError(Previous(), BreakOutsideLoop));
      }
      var semi := Consume(Tokens.Semicolon, BreakSemicolon);
      if semi.Err? {
        return Err(semi.error);
      }
      return Ok(Stmt.Break(Previous()));
    }

    /** `expr_stmt`: an expression and its `;`. */
    method ExprStmt() returns (r: Result<Stmt, ParseError>)
      requires Valid()
      modifies this`current, this`nextId
      ensures Valid() && old(current) <= current
      ensures r.Ok? ==> old(current) < current && r.value.Expression? && Previous().kind == Tokens.Semicolon
      ensures r.Ok? ==> current == FirstSemicolon(tokens, old(current)) + 1
      decreases |tokens| - current, 30
    {
      var e := Expression(FirstSemicolon(tokens, current));
      if e.Err? {
        return Err(e.error);
      }
      var semi := Consume(Tokens.Semicolon, ValueSemicolon);
      if semi.Err? {
        return Err(semi.error);
      }
      AtFirstSemicolon(tokens, old(current), current - 1);
      return Ok(Stmt.Expression(e.value));
    }

    method Expression(ghost limit: nat) returns (r: Result<Expr, ParseError>)
      requires Valid() && current <= limit && SemicolonAt(limit)
      modifies this`current, this`nextId
      ensures Valid() && old(current) <= current
      ensures r.Ok? ==> old(current) < current
      ensures r.Ok? ==> current <= limit
      decreases |tokens| - current, 28
    {
      ghost var target, value;
      r, target, value := Assignment(limit);
    }

    /**
     * `assignment`: parse an `or`-level expression; if `=` follows, parse
     * the right side as another assignment (so `a = b = c` is
     * `a = (b = c)`), then a Variable target becomes Assign, a Get target
     * Set, and anything else is an error at the `=`.
     */
    method Assignment(ghost limit: nat) returns (r: Result<Expr, ParseError>, ghost target: Expr, ghost value: Option<Expr>)
      requires Valid() && current <= limit && SemicolonAt(limit)
      modifies this`current, this`nextId
      ensures Valid() && old(current) <= current
      ensures r.Ok? ==> old(current) < current
      ensures r.Ok? && value.None? ==> r.value == target
      ensures r.Ok? && value.Some? ==>
        (target.Variable? && r.value.Assign? && r.value.name == target.name && r.value.value == value.value) ||
        (target.Get? && r.value == Set(target.obj, target.name, value.value))
      ensures value.Some? && !target.Variable? && !target.Get? ==>
        r.Err? && r.error.message == InvalidAssignmentTarget && r.error.token.kind == Tokens.Equal
      ensures r.Ok? ==> current <= limit
      decreases |tokens| - current, 27
    {
      target, value := Literal(LNil), None;
      ghost var first, operators, operands;
      var lhs;
      lhs, first, operators, operands := LeftFold(OrLevel, limit);
      if lhs.Err? {
        return Err(lhs.error), target, value;
      }
      target := lhs.value;
      var lhsExpr := lhs.value;
      var eq := Match({Tokens.Equal});
      if !eq {
        return lhs, target, value;
      }
      var errorPos := Previous();
      NotPastSemicolon(tokens, current - 1, limit);
      ghost var t, v;
      var rhs;
      rhs, t, v := Assignment(limit);
      if rhs.Err? {
        return Err(rhs.error), target, value;
      }
      value := Some(rhs.value);
      if lhsExpr.Variable? {
        var id := FreshId();
        return Ok(Assign(id, lhsExpr.name, rhs.value)), target, value;
      }
      if lhsExpr.Get? {
        return Ok(Set(lhsExpr.obj, lhsExpr.name, rhs.value)), target, value;
      }
      return Err(ParseError(errorPos, InvalidAssignmentTarget)), target, value;
    }

    /**
     * The six left-folding levels `logic_or` … `multiplication`: an operand,
     * then while one of the level's operators matches, another operand,
     * folded into the result from the left.
     */
    method LeftFold(level: Level, ghost limit: nat) returns (r: Result<Expr, ParseError>,
                                           ghost first: Expr, ghost operators: seq<Token>, ghost operands: seq<Expr>)
      requires Valid() && current <= limit && SemicolonAt(limit)
      modifies this`current, this`nextId
      ensures Valid() && old(current) <= current
      ensures r.Ok? ==> old(current) < current
      ensures r.Ok? ==> FoldsChain(level, first, operators, operands, r.value)
      ensures r.Ok? ==> current <= limit
      decreases |tokens| - current, 26 - 3 * LevelIndex(level)
    {
      first, operators, operands := Literal(LNil), [], [];
      r := Operand(level, limit);
      if r.Err? {
        return;
      }
      first := r.value;
      r, operators, operands := FoldOperands(level, first, [], [], r.value, limit);
    }

    /** The loop of a left-folding level, from the fold `left` of a chain so far. */
    method FoldOperands(level: Level, ghost first: Expr, ghost operators0: seq<Token>, ghost operands0: seq<Expr>, left: Expr, ghost limit: nat)
      returns (r: Result<Expr, ParseError>, ghost operators: seq<Token>, ghost operands: seq<Expr>)
      requires Valid() && current <= limit && SemicolonAt(limit) && FoldsChain(level, first, operators0, operands0, left)
      modifies this`current, this`nextId
      ensures Valid() && old(current) <= current
      ensures r.Ok? ==> FoldsChain(level, first, operators, operands, r.value)
      ensures r.Ok? ==> current <= limit
      decreases |tokens| - current, 25 - 3 * LevelIndex(level)
    {
      operators, operands := operators0, operands0;
      var result := left;
      while true
        invariant Valid() && old(current) <= current
        invariant FoldsChain(level, first, operators, operands, result)
        invariant current <= limit
        decreases |tokens| - current
      {
        var m := Match(Operators(level));
        if !m {
          break;
        }
        var operator := Previous();
        NotPastSemicolon(tokens, current - 1, limit);
        var rhs := Operand(level, limit);
        if rhs.Err? {
          return Err(rhs.error), operators, operands;
        }
        ChainStep(level, first, operators, operands, result, operator, rhs.value);
        result := Combine(level, result, operator, rhs.value);
        operators, operands := operators + [operator], operands + [rhs.value];
      }
      r := Ok(result);
    }

    /** The operand parse of a level: the next tighter level, or `unary` under multiplication. */
    method Operand(level: Level, ghost limit: nat) returns (r: Result<Expr, ParseError>)
      requires Valid() && current <= limit && SemicolonAt(limit)
      modifies this`current, this`nextId
      ensures Valid() && old(current) <= current
      ensures r.Ok? ==> old(current) < current
      ensures r.Ok? ==> current <= limit
      ensures r.Ok? ==> TightFor(level, r.value)
      decreases |tokens| - current, 24 - 3 * LevelIndex(level)
    {
      if level == MultiplicationLevel {
        r := Unary(limit);
      } else {
        ghost var first, operators, operands;
        r, first, operators, operands := LeftFold(Tighter(level), limit);
      }
    }

    /** `unary`: `!` and `-` nest to the right; otherwise a call. */
    method Unary(ghost limit: nat) returns (r: Result<Expr, ParseError>)
      requires Valid() && current <= limit && SemicolonAt(limit)
      modifies this`current, this`nextId
      ensures Valid() && old(current) <= current
      ensures r.Ok? ==> old(current) < current
      ensures r.Ok? && old(Check(Tokens.Bang) || Check(Tokens.Minus)) ==>
        r.value.Unary? && r.value.operator == old(Peek())
      ensures r.Ok? ==> current <= limit
      ensures r.Ok? ==> !r.value.Binary? && !r.value.Logical?
      decreases |tokens| - current, 8
    {
      var m := Match({Tokens.Bang, Tokens.Minus});
      if m {
        var operator := Previous();
        NotPastSemicolon(tokens, current - 1, limit);
        var right := Unary(limit);
        if right.Err? {
          return Err(right.error);
        }
        return Ok(Expr.Unary(operator, right.value));
      }
      r := Call(limit);
    }

    /** `call`: a primary followed by any number of argument lists and `.name` accesses. */
    method Call(ghost limit: nat) returns (r: Result<Expr, ParseError>)
      requires Valid() && current <= limit && SemicolonAt(limit)
      modifies this`current, this`nextId
      ensures Valid() && old(current) <= current
      ensures r.Ok? ==> old(current) < current
      ensures r.Ok? ==> current <= limit
      ensures r.Ok? ==> !r.value.Binary? && !r.value.Logical?
      decreases |tokens| - current, 7
    {
      r := Primary(limit);
      if r.Err? {
        return;
      }
      var e := r.value;
      while true
        invariant Valid() && old(current) < current
        invariant current <= limit && !e.Binary? && !e.Logical?
        decreases |tokens| - current
      {
        var paren := Match({Tokens.LeftParen});
        if paren {
          NotPastSemicolon(tokens, current - 1, limit);
          var c := FinishCall(e, limit);
          if c.Err? {
            return Err(c.error);
          }
          e := c.value;
        } else {
          var dot := Match({Tokens.Dot});
          if !dot {
            break;
          }
          NotPastSemicolon(tokens, current - 1, limit);
          var name := Consume(Tokens.Identifier, PropertyName);
          if name.Err? {
            return Err(name.error);
          }
          NotPastSemicolon(tokens, current - 1, limit);
          e := Get(e, name.value);
        }
      }
      r := Ok(e);
    }

    /**
     * `finish_call`, entered after `(`: arguments up to `)`, commas between
     * them optional. The limit check follows each argument and tests
     * `>= Max_Args`, so at most 15 arguments pass.
     */
    method FinishCall(callee: Expr, ghost limit: nat) returns (r: Result<Expr, ParseError>)
      requires Valid() && current <= limit && SemicolonAt(limit)
      modifies this`current, this`nextId
      ensures Valid() && old(current) <= current
      ensures r.Ok? ==> old(current) < current
      ensures r.Ok? ==> r.value.Call? && r.value.callee == callee && r.value.paren.kind == Tokens.RightParen
      ensures r.Ok? ==> |r.value.arguments| < MaxArgs
      ensures r.Ok? ==> current <= limit
      decreases |tokens| - current, 29
    {
      var arguments: seq<Expr> := [];
      while !Check(Tokens.RightParen)
        invariant Valid() && old(current) <= current && |arguments| < MaxArgs
        invariant current <= limit
        decreases |tokens| - current
      {
        var a := Expression(limit);
        if a.Err? {
          return Err(a.error);
        }
        arguments := arguments + [a.value];
        if |arguments| >= MaxArgs {
          return Err(ParseError(Peek(), TooManyArguments));
        }
        var comma := Match({Tokens.Comma});
        if comma {
          NotPastSemicolon(tokens, current - 1, limit);
        }
      }
      var rparen := Consume(Tokens.RightParen, CallEnd);
      assert rparen.Ok?;
      NotPastSemicolon(tokens, current - 1, limit);
      return Ok(Expr.Call(callee, rparen.value, arguments));
    }

    /**
     * `primary`: names, keyword values and literals; the rest of its cases
     * are in PrimaryRest.
     */
    method Primary(ghost limit: nat) returns (r: Result<Expr, ParseError>)
      requires Valid() && current <= limit && SemicolonAt(limit)
      modifies this`current, this`nextId
      ensures Valid() && old(current) <= current
      ensures r.Ok? ==> old(current) < current
      ensures old(Check(Tokens.Identifier)) ==> r.Ok? && r.value.Variable? && r.value.name == old(Peek())
      ensures old(Check(Tokens.False)) ==> r == Ok(Literal(LBool(false)))
      ensures old(Check(Tokens.True)) ==> r == Ok(Literal(LBool(true)))
      ensures old(Check(Tokens.Nil)) ==> r == Ok(Literal(LNil))
      ensures old(Check(Tokens.This)) ==> r.Ok? && r.value.This? && r.value.keyword == old(Peek())
      ensures old(Check(Tokens.Number) || Check(Tokens.String)) ==> r == Ok(Literal(TokenLiteral(old(Peek()).literal)))
      ensures r.Ok? ==> current <= limit
      ensures r.Ok? ==> !r.value.Binary? && !r.value.Logical?
      decreases |tokens| - current, 6
    {
      assert Peek().kind != Tokens.Semicolon ==> current < limit;
      if Check(Tokens.Identifier) {
        var _ := Advance();
        var id := FreshId();
        return Ok(Variable(id, Previous()));
      }
      if Check(Tokens.False) {
        var _ := Advance();
        return Ok(Literal(LBool(false)));
      }
      if Check(Tokens.True) {
        var _ := Advance();
        return Ok(Literal(LBool(true)));
      }
      if Check(Tokens.Nil) {
        var _ := Advance();
        return Ok(Literal(LNil));
      }
      if Check(Tokens.This) {
        var _ := Advance();
        var id := FreshId();
        return Ok(This(id, Previous()));
      }
      if Check(Tokens.Number) || Check(Tokens.String) {
        var _ := Advance();
        return Ok(Literal(TokenLiteral(Previous().literal)));
      }
      r := PrimaryRest(limit);
    }

    /** The kind of the token after the current one (EOF past the end). */
    function NextKind(): Tokens.TokenKind
      reads this`current
      requires Valid()
    {
      if current + 1 < |tokens| then tokens[current + 1].kind else Tokens.Eof
    }

    /** `primary`'s `super.name` and parenthesised cases, and its two errors. */
    method PrimaryRest(ghost limit: nat) returns (r: Result<Expr, ParseError>)
      requires Valid() && current <= limit && SemicolonAt(limit)
      modifies this`current, this`nextId
      ensures Valid() && old(current) <= current
      ensures r.Ok? ==> old(current) < current
      ensures old(Check(Tokens.Super)) && r.Ok? ==> r.value.Super? && r.value.keyword == old(Peek())
      ensures old(Check(Tokens.LeftParen)) && r.Ok? ==> r.value.Grouping?
      ensures PrimaryFallback(old(Peek()), old(NextKind()), r)
      ensures r.Ok? ==> current <= limit
      ensures r.Ok? ==> !r.value.Binary? && !r.value.Logical?
      decreases |tokens| - current, 5
    {
      if Check(Tokens.Super) {
        r := SuperAccess(limit);
        return;
      }
      if Check(Tokens.LeftParen) {
        r := Group(limit);
        return;
      }
      var bad := Peek();
      if bad.kind in OperatorsWithoutLeft {
        return Err(ParseError(bad, MissingLeftOperand));
      }
      return Err(ParseError(bad, UnanticipatedInput));
    }

    /** `super . IDENTIFIER`, at the `super` keyword. */
    method SuperAccess(ghost limit: nat) returns (r: Result<Expr, ParseError>)
      requires Valid() && current <= limit && SemicolonAt(limit) && Check(Tokens.Super)
      modifies this`current, this`nextId
      ensures Valid() && old(current) < current
      ensures r.Ok? ==> r.value.Super? && r.value.keyword == old(Peek())
      ensures r.Ok? ==> current <= limit
      ensures r.Ok? ==> !r.value.Binary? && !r.value.Logical?
    {
      var _ := Advance();
      NotPastSemicolon(tokens, current - 1, limit);
      var keyword := Previous();
      var dot := Consume(Tokens.Dot, SuperDot);
      if dot.Err? {
        return Err(dot.error);
      }
      NotPastSemicolon(tokens, current - 1, limit);
      var methodName := Consume(Tokens.Identifier, SuperMethodName);
      if methodName.Err? {
        return Err(methodName.error);
      }
      NotPastSemicolon(tokens, current - 1, limit);
      var id := FreshId();
      return Ok(Super(id, keyword, methodName.value));
    }

    /** A parenthesised expression, at the `(`; an empty pair of parentheses groups `nil`. */
    method Group(ghost limit: nat) returns (r: Result<Expr, ParseError>)
      requires Valid() && current <= limit && SemicolonAt(limit) && Check(Tokens.LeftParen)
      modifies this`current, this`nextId
      ensures Valid() && old(current) < current
      ensures r.Ok? ==> r.value.Grouping?
      ensures old(NextKind()) == Tokens.RightParen ==> r == Ok(Grouping(Literal(LNil)))
      ensures r.Ok? ==> current <= limit
      ensures r.Ok? ==> !r.value.Binary? && !r.value.Logical?
      decreases |tokens| - current, 4
    {
      var _ := Advance();
      NotPastSemicolon(tokens, current - 1, limit);
      var grouped;
      if Peek().kind == Tokens.RightParen {
        grouped := Literal(LNil);
      } else {
        var e := Expression(limit);
        if e.Err? {
          return Err(e.error);
        }
        grouped := e.value;
      }
      var close := Consume(Tokens.RightParen, GroupEnd);
      if close.Err? {
        return Err(close.error);
      }
      NotPastSemicolon(tokens, current - 1, limit);
      return Ok(Grouping(grouped));
    }
  }
}
