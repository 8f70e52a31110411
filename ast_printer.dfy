/**
 * The expression printer (craftinginterpreters/AstPrinter.py): a syntax
 * tree in parenthesised prefix form, every part separated by one space, as
 * in `( * ( - 123 ) ( group 45.67 ) )`. Only Assign, Binary, Grouping,
 * Literal and Unary have a printing visitor; the other node kinds fall back
 * to the base visitor, which raises NotImplementedError. `str()` of a float
 * is the parameter `numText`.
 */
module AstPrinter {
  import opened Basics
  import Tokens
  import opened Ast

  /** What the printer raises: NotImplementedError (a node without a visitor, or a Stmt item) or TypeError. */
  datatype PrintError = NoVisitor(node: string) | LostInStatement | UnknownArgument

  function ErrorText(e: PrintError): string {
    match e
    case NoVisitor(node) => "No visitor defined for Expr." + node
    case LostInStatement => "Papa, I'm lost!"
    case UnknownArgument => "unknown argument to parenthesize2"
  }

  /** `parenthesize2` accepts anything: expressions, statements, tokens, strings, other objects. */
  datatype Item = ExprItem(e: Expr) | StmtItem(s: Stmt) | TokenItem(t: Token) | TextItem(text: string) | OtherItem

  /** `' '.join(parts)`. */
  function Joined(parts: seq<string>): string {
    if |parts| == 0 then ""
    else if |parts| == 1 then parts[0]
    else parts[0] + " " + Joined(parts[1..])
  }

  /** Joining two non-empty lists puts exactly one space between them. */
  lemma {:induction false} JoinedAppend(a: seq<string>, b: seq<string>)
    requires |a| > 0 && |b| > 0
    ensures Joined(a + b) == Joined(a) + " " + Joined(b)
  {
    if |a| == 1 {
      assert (a + b)[1..] == b;
    } else {
      assert (a + b)[1..] == a[1..] + b;
      JoinedAppend(a[1..], b);
    }
  }

  /** The class name the base visitor names in its message (the one for This corrected; see Findings). */
  function NodeName(e: Expr): string {
    match e
    case Assign(_, _, _) => "Assign"
    case Binary(_, _, _) => "Binary"
    case Call(_, _, _) => "Call"
    case Get(_, _) => "Get"
    case Grouping(_) => "Grouping"
    case Literal(_) => "Literal"
    case Logical(_, _, _) => "Logical"
    case Set(_, _, _) => "Set"
    case Super(_, _, _) => "Super"
    case This(_, _) => "This"
    case Unary(_, _) => "Unary"
    case Variable(_, _) => "Variable"
  }

  /** The position of an expression's kind in the declaration order of `Expr`. */
  function KindIndex(e: Expr): nat {
    match e
    case Assign(_, _, _) => 0
    case Binary(_, _, _) => 1
    case Call(_, _, _) => 2
    case Get(_, _) => 3
    case Grouping(_) => 4
    case Literal(_) => 5
    case Logical(_, _, _) => 6
    case Set(_, _, _) => 7
    case Super(_, _, _) => 8
    case This(_, _) => 9
    case Unary(_, _) => 10
    case Variable(_, _) => 11
  }

  /** Reads the kind back from a class name, by its first letter, length and second letter. */
  function KindOfName(name: string): nat {
    if |name| < 3 then 12
    else if name[0] == 'A' then 0
    else if name[0] == 'B' then 1
    else if name[0] == 'C' then 2
    else if name[0] == 'G' then (if |name| == 3 then 3 else 4)
    else if name[0] == 'L' then (if name[1] == 'i' then 5 else 6)
    else if name[0] == 'S' then (if |name| == 3 then 7 else 8)
    else if name[0] == 'T' then 9
    else if name[0] == 'U' then 10
    else 11
  }

  lemma KindOfNodeName(e: Expr)
    ensures KindOfName(NodeName(e)) == KindIndex(e)
  {
    match e
    case Get(_, _) => assert |NodeName(e)| == 3;
    case Grouping(_) => assert |NodeName(e)| == 8;
    case Literal(_) => assert NodeName(e)[1] == 'i';
    case Logical(_, _, _) => assert NodeName(e)[1] == 'o';
    case Set(_, _, _) => assert |NodeName(e)| == 3;
    case Super(_, _, _) => assert |NodeName(e)| == 5;
    case _ =>
  }

  /** The base visitor's message tells every two node kinds apart. */
  lemma NodeNamesDistinct(a: Expr, b: Expr)
    requires KindIndex(a) != KindIndex(b)
    ensures ErrorText(NoVisitor(NodeName(a))) != ErrorText(NoVisitor(NodeName(b)))
  {
    KindOfNodeName(a);
    KindOfNodeName(b);
    var prefix := "No visitor defined for Expr.";
    assert ErrorText(NoVisitor(NodeName(a)))[|prefix|..] == NodeName(a);
    assert ErrorText(NoVisitor(NodeName(b)))[|prefix|..] == NodeName(b);
  }

  /** The class name in the base visitor's message as written: `visitThis` repeats the one of `visitUnary`. */
  function NodeNameAsWritten(e: Expr): string {
    if e.This? then "Unary" else NodeName(e)
  }

  /** As written, a This node and a Unary node raise the same message. */
  lemma ThisReportedAsUnary(id: nat, keyword: Token, operator: Token, right: Expr)
    ensures NodeNameAsWritten(This(id, keyword)) == NodeNameAsWritten(Unary(operator, right))
    ensures KindIndex(This(id, keyword)) != KindIndex(Unary(operator, right))
  {
  }

  /** `visitLiteral`: None prints as nil, other values as Python's `str` (True and False capitalised). */
  function LiteralText(l: LiteralValue, numText: real -> string): string {
    match l
    case LNil => "nil"
    case LBool(b) => if b then "True" else "False"
    case LNumber(r) => numText(r)
    case LString(s) => s
  }

  function ItemsSize(items: seq<Item>): nat {
    if items == [] then 0
    else (if items[0].ExprItem? then ExprSize(items[0].e) else 0) + ItemsSize(items[1..])
  }

  /** The printed form of an expression, through the visitor of its kind. */
  function Print(e: Expr, numText: real -> string): (r: Result<string, PrintError>)
    decreases ExprSize(e), 0, 0
  {
    match e
    case Assign(_, name, value) =>
      assert ItemsSize([TextItem(name.lexeme), ExprItem(value)]) == ExprSize(value) by {
        assert [ExprItem(value)][1..] == [];
        assert ItemsSize([ExprItem(value)]) == ExprSize(value);
        assert [TextItem(name.lexeme), ExprItem(value)][1..] == [ExprItem(value)];
      }
      Parenthesize2("=", [TextItem(name.lexeme), ExprItem(value)], numText)
    case Binary(left, operator, right) =>
      assert ExprsSize([left, right]) == ExprSize(left) + ExprSize(right) by {
        assert [right][1..] == [];
        assert ExprsSize([right]) == ExprSize(right);
        assert [left, right][1..] == [right];
      }
      Parenthesize(operator.lexeme, [left, right], numText)
    case Grouping(inner) =>
      assert ExprsSize([inner]) == ExprSize(inner) by {
        assert [inner][1..] == [];
      }
      Parenthesize("group", [inner], numText)
    case Literal(l) => Ok(LiteralText(l, numText))
    case Unary(operator, right) =>
      assert ExprsSize([right]) == ExprSize(right) by {
        assert [right][1..] == [];
      }
      Parenthesize(operator.lexeme, [right], numText)
    case _ => Err(NoVisitor(NodeName(e)))
  }

  /** Each expression printed in turn; the first failure is the result. */
  function PrintAll(exprs: seq<Expr>, numText: real -> string): (r: Result<seq<string>, PrintError>)
    ensures r.Ok? ==> |r.value| == |exprs|
    decreases ExprsSize(exprs), 1, 0
  {
    if exprs == [] then Ok([])
    else
      match Print(exprs[0], numText)
      case Err(err) => Err(err)
      case Ok(first) =>
        match PrintAll(exprs[1..], numText)
        case Err(err) => Err(err)
        case Ok(rest) => Ok([first] + rest)
  }

  /** `parenthesize(name, *exprs)`: `(`, the name, each expression printed, `)`, space-separated. */
  function Parenthesize(name: string, exprs: seq<Expr>, numText: real -> string): (r: Result<string, PrintError>)
    decreases ExprsSize(exprs), 2, 0
  {
    match PrintAll(exprs, numText)
    case Err(err) => Err(err)
    case Ok(parts) => Ok(Joined(["(", name] + parts + [")"]))
  }

  /** The text of each item of `parenthesize2`; a statement or an object of another type is refused. */
  function ItemTexts(items: seq<Item>, numText: real -> string): (r: Result<seq<string>, PrintError>)
    ensures r.Ok? ==> |r.value| == |items|
    decreases ItemsSize(items), 1, |items|
  {
    if items == [] then Ok([])
    else
      var first: Result<string, PrintError> :=
        match items[0]
        case ExprItem(e) => Print(e, numText)
        case StmtItem(_) => Err(LostInStatement)
        case TokenItem(t) => Ok(t.lexeme)
        case TextItem(s) => Ok(s)
        case OtherItem => Err(UnknownArgument);
      match first
      case Err(err) => Err(err)
      case Ok(text) =>
        match ItemTexts(items[1..], numText)
        case Err(err) => Err(err)
        case Ok(rest) => Ok([text] + rest)
  }

  /** `parenthesize2(name, *items)`. */
  function Parenthesize2(name: string, items: seq<Item>, numText: real -> string): (r: Result<string, PrintError>)
    decreases ItemsSize(items), 2, 0
  {
    match ItemTexts(items, numText)
    case Err(err) => Err(err)
    case Ok(parts) => Ok(Joined(["(", name] + parts + [")"]))
  }

  /** The node kinds the printer has a visitor for, all the way down. */
  predicate Printable(e: Expr) {
    match e
    case Assign(_, _, value) => Printable(value)
    case Binary(left, _, right) => Printable(left) && Printable(right)
    case Grouping(inner) => Printable(inner)
    case Literal(_) => true
    case Unary(_, right) => Printable(right)
    case _ => false
  }

  /** Printing a one-element list fails with, or else wraps, the element's printed form. */
  lemma PrintAllOne(e: Expr, numText: real -> string)
    ensures PrintAll([e], numText) ==
      if Print(e, numText).Err? then Err(Print(e, numText).error) else Ok([Print(e, numText).value])
  {
    assert [e][1..] == [];
    if Print(e, numText).Ok? {
      var t := Print(e, numText).value;
      assert [t] + [] == [t];
    }
  }

  /** Printing a two-element list fails with the first element's error, else with the second's. */
  lemma PrintAllTwo(l: Expr, r: Expr, numText: real -> string)
    ensures PrintAll([l, r], numText) ==
      if Print(l, numText).Err? then Err(Print(l, numText).error)
      else if Print(r, numText).Err? then Err(Print(r, numText).error)
      else Ok([Print(l, numText).value, Print(r, numText).value])
  {
    assert [l, r][1..] == [r];
    PrintAllOne(r, numText);
    if Print(l, numText).Ok? && Print(r, numText).Ok? {
      assert [Print(l, numText).value] + [Print(r, numText).value] == [Print(l, numText).value, Print(r, numText).value];
    }
  }

  /** The items of an assignment: the name as text, then the value printed. */
  lemma AssignItems(name: string, value: Expr, numText: real -> string)
    ensures ItemTexts([TextItem(name), ExprItem(value)], numText) ==
      if Print(value, numText).Err? then Err(Print(value, numText).error) else Ok([name, Print(value, numText).value])
  {
    assert [TextItem(name), ExprItem(value)][1..] == [ExprItem(value)];
    assert [ExprItem(value)][1..] == [];
    if Print(value, numText).Ok? {
      var v := Print(value, numText).value;
      assert [v] + [] == [v];
      assert ItemTexts([ExprItem(value)], numText) == Ok([v]);
      assert [name] + [v] == [name, v];
    }
  }

  /** Printing succeeds exactly on the trees built only of kinds with a visitor. */
  lemma {:induction false} PrintOkIffPrintable(e: Expr, numText: real -> string)
    ensures Print(e, numText).Ok? <==> Printable(e)
  {
    match e
    case Assign(_, name, value) =>
      PrintOkIffPrintable(value, numText);
      AssignItems(name.lexeme, value, numText);
    case Binary(left, _, right) =>
      PrintOkIffPrintable(left, numText);
      PrintOkIffPrintable(right, numText);
      PrintAllTwo(left, right, numText);
    case Grouping(inner) =>
      PrintOkIffPrintable(inner, numText);
      PrintAllOne(inner, numText);
    case Literal(_) =>
    case Unary(_, right) =>
      PrintOkIffPrintable(right, numText);
      PrintAllOne(right, numText);
    case _ =>
  }

  /** `' '.join` of three parts. */
  lemma JoinedThree(a: string, b: string, c: string)
    ensures Joined([a, b, c]) == a + " " + b + " " + c
  {
    assert [a, b, c][1..] == [b, c];
    assert [b, c][1..] == [c];
    assert Joined([b, c]) == b + " " + c;
    assert a + " " + (b + " " + c) == a + " " + b + " " + c;
  }

  lemma JoinedFour(a: string, b: string, c: string, d: string)
    ensures Joined([a, b, c, d]) == a + " " + b + " " + c + " " + d
  {
    assert [a, b, c, d][1..] == [b, c, d];
    JoinedThree(b, c, d);
  }

  lemma JoinedFive(a: string, b: string, c: string, d: string, e: string)
    ensures Joined([a, b, c, d, e]) == a + " " + b + " " + c + " " + d + " " + e
  {
    assert [a, b, c, d, e][1..] == [b, c, d, e];
    JoinedFour(b, c, d, e);
  }

  /** A binary node prints its operator, then its left operand, then its right, e.g. `( + 1 2 )`. */
  lemma BinaryText(left: Expr, operator: Token, right: Expr, numText: real -> string)
    requires Print(left, numText).Ok? && Print(right, numText).Ok?
    ensures Print(Binary(left, operator, right), numText) ==
      Ok("(" + " " + operator.lexeme + " " + Print(left, numText).value + " " + Print(right, numText).value + " " + ")")
  {
    var l, r := Print(left, numText).value, Print(right, numText).value;
    PrintAllTwo(left, right, numText);
    assert ["(", operator.lexeme] + [l, r] + [")"] == ["(", operator.lexeme, l, r, ")"];
    JoinedFive("(", operator.lexeme, l, r, ")");
  }

  /** When the left operand cannot be printed, its error is the binary node's; else the right operand's error is. */
  lemma BinaryFirstError(left: Expr, operator: Token, right: Expr, numText: real -> string)
    requires Print(Binary(left, operator, right), numText).Err?
    ensures Print(left, numText).Err? ==> Print(Binary(left, operator, right), numText) == Print(left, numText)
    ensures Print(left, numText).Ok? ==> Print(Binary(left, operator, right), numText) == Print(right, numText)
  {
    PrintAllTwo(left, right, numText);
  }

  /** A unary node prints its operator, then its operand. */
  lemma UnaryText(operator: Token, right: Expr, numText: real -> string)
    requires Print(right, numText).Ok?
    ensures Print(Unary(operator, right), numText) ==
      Ok("(" + " " + operator.lexeme + " " + Print(right, numText).value + " " + ")")
  {
    var r := Print(right, numText).value;
    PrintAllOne(right, numText);
    assert ["(", operator.lexeme] + [r] + [")"] == ["(", operator.lexeme, r, ")"];
    JoinedFour("(", operator.lexeme, r, ")");
  }

  /** A grouping prints under the head `group`. */
  lemma GroupingText(inner: Expr, numText: real -> string)
    requires Print(inner, numText).Ok?
    ensures Print(Grouping(inner), numText) == Ok("(" + " " + "group" + " " + Print(inner, numText).value + " " + ")")
  {
    var v := Print(inner, numText).value;
    PrintAllOne(inner, numText);
    assert ["(", "group"] + [v] + [")"] == ["(", "group", v, ")"];
    JoinedFour("(", "group", v, ")");
  }

  /** An assignment prints as `( = name value )`. */
  lemma AssignText(id: nat, name: Token, value: Expr, numText: real -> string)
    requires Print(value, numText).Ok?
    ensures Print(Assign(id, name, value), numText) ==
      Ok("(" + " " + "=" + " " + name.lexeme + " " + Print(value, numText).value + " " + ")")
  {
    var v := Print(value, numText).value;
    AssignItems(name.lexeme, value, numText);
    assert ["(", "="] + [name.lexeme, v] + [")"] == ["(", "=", name.lexeme, v, ")"];
    JoinedFive("(", "=", name.lexeme, v, ")");
  }

  /** On expressions alone, `parenthesize2` prints exactly what `parenthesize` prints. */
  lemma {:induction false} ItemTextsOfExprs(exprs: seq<Expr>, numText: real -> string)
    ensures ItemTexts(seq(|exprs|, i requires 0 <= i < |exprs| => ExprItem(exprs[i])), numText) == PrintAll(exprs, numText)
  {
    var items := seq(|exprs|, i requires 0 <= i < |exprs| => ExprItem(exprs[i]));
    if exprs != [] {
      assert items[1..] == seq(|exprs[1..]|, i requires 0 <= i < |exprs[1..]| => ExprItem(exprs[1..][i]));
      ItemTextsOfExprs(exprs[1..], numText);
    }
  }

  lemma Parenthesize2OfExprs(name: string, exprs: seq<Expr>, numText: real -> string)
    ensures Parenthesize2(name, seq(|exprs|, i requires 0 <= i < |exprs| => ExprItem(exprs[i])), numText) ==
      Parenthesize(name, exprs, numText)
  {
    ItemTextsOfExprs(exprs, numText);
  }

  /** A statement item is refused with NotImplementedError, and an object of another type with TypeError, unless an earlier item already failed. */
  lemma {:induction false} ItemTextsRefuses(items: seq<Item>, k: nat, numText: real -> string)
    requires k < |items| && (items[k].StmtItem? || items[k].OtherItem?)
    requires forall j :: 0 <= j < k ==>
      (!items[j].StmtItem? && !items[j].OtherItem? && (items[j].ExprItem? ==> Print(items[j].e, numText).Ok?))
    ensures ItemTexts(items, numText) == Err(if items[k].StmtItem? then LostInStatement else UnknownArgument)
  {
    if k > 0 {
      ItemTextsRefuses(items[1..], k - 1, numText);
    }
  }

  /** The printed form of `-123 * (45.67)`, the book's example. */
  lemma BookExample(minus: Token, star: Token, numText: real -> string)
    requires minus.lexeme == "-" && star.lexeme == "*"
    ensures Print(Binary(Unary(minus, Literal(LNumber(123.0))), star, Grouping(Literal(LNumber(45.67)))), numText) ==
      Ok("( * ( - " + numText(123.0) + " ) ( group " + numText(45.67) + " ) )")
  {
    var neg := Unary(minus, Literal(LNumber(123.0)));
    var grp := Grouping(Literal(LNumber(45.67)));
    UnaryText(minus, Literal(LNumber(123.0)), numText);
    GroupingText(Literal(LNumber(45.67)), numText);
    BinaryText(neg, star, grp, numText);
    BookExampleText(numText(123.0), numText(45.67));
  }

  lemma BookExampleText(n1: string, n2: string)
    ensures "(" + " " + "*" + " " + ("(" + " " + "-" + " " + n1 + " " + ")") + " " +
      ("(" + " " + "group" + " " + n2 + " " + ")") + " " + ")" == "( * ( - " + n1 + " ) ( group " + n2 + " ) )"
  {
    var a, b := "(" + " " + "-" + " " + n1 + " " + ")", "(" + " " + "group" + " " + n2 + " " + ")";
    assert a == "( - " + n1 + " )";
    assert b == "( group " + n2 + " )";
    assert "(" + " " + "*" + " " + a + " " + b + " " + ")" == "( * " + a + " " + b + " )";
  }
}
