# A verified model of a Python tree-walking Lox interpreter

This project models, in Dafny, the core of a Python implementation of Lox,
the small dynamically typed, class-based language of *Crafting
Interpreters*. The implementation runs a program in four passes, and each
becomes a module here:

- **Scanner** (`scanner.dfy`, `tokens.dfy`) turns source text into tokens.
  It is a class whose `start`, `current`, `line` and `lastNewline` fields
  advance as it scans. Every lexeme is specified by the pure function
  `NextLexeme`, and each scanning method is proved to do what that function
  says.
- **Parser** (`parser.dfy`, `ast.dfy`) is the recursive-descent parser,
  modelled as a class over the token list. It keeps the source's own
  grammar: desugaring of `for`, `()` as `(nil)`, optional commas between
  call arguments, `break` accepted only inside loops, and the error
  recovery of `synchronize`.
- **Resolver** (`resolver.dfy`) keeps a stack of scopes. For each local
  variable reference it records how many scopes out the variable lives.
  It reports the source's errors: redeclaration, reading a variable in
  its own initializer, `return` at top level, and a local that is never
  read.
- **Interpreter** (`values.dfy`, `environment.dfy`, `runtime.dfy`,
  `callables.dfy`, `operations.dfy`, `interpreter.dfy`) evaluates the
  tree. Environments, functions, classes and instances live in one arena
  of heap objects, the `Heap` class. A Lox value refers to these objects by
  index, so identity and aliasing behave as in the source. `break` and
  `return` are outcomes of statement execution. Evaluation carries fuel so
  that every method terminates.

Two smaller tools in the same repository are modelled as well:

- **AstPrinter** (`ast_printer.dfy`) prints an expression in prefix form.
- **MakeAsts** (`make_asts.dfy`) generates the `Expr` and `Stmt` class
  modules from one-line specifications. Its output file is a class whose
  only state is the growing sequence of writes.

`findings.dfy` models, as written, the places where the code does not do
what it evidently intends; see "## Findings".

Some conventions hold throughout:

- A Python exception is a `Result` error value carrying the same message.
- The program's output is a sequence of printed lines.
- Numbers are exact `real`s. The text Python's `str` gives a float is a
  function parameter, `numText`.
- The value of `time.time()` is a parameter.

The source's `Expr`, `Stmt`, `Token` and `TokenType` classes are
datatypes. They include the `BREAK` token kind, the `break` keyword and
the `Stmt.Break` node, which the parser and interpreter use but the
generated classes and the keyword table lack.

## Model

| member | source | states |
|---|---|---|
| Tokens.IdentifierKind | craftinginterpreters/Scanner.py:247-253 | a word in the keyword table gets that keyword's kind, any other word is an IDENTIFIER, and never EOF |
| Tokens.KeywordsDistinct | craftinginterpreters/Scanner.py:75-92 | distinct reserved words have distinct kinds, none of which is IDENTIFIER, STRING, NUMBER or EOF |
| Tokens.KeywordInverse | craftinginterpreters/Scanner.py:75-92 | the keyword table is invertible: each keyword kind maps back to its own word |
| Scanner.SingleKind | craftinginterpreters/Scanner.py:55-65 | the one-character entries of the switch table, none of which is EOF |
| Scanner.OperatorKind | craftinginterpreters/Scanner.py:66-69 | `!`, `=`, `<` and `>` take their `=`-suffixed kind exactly when followed by `=` |
| Scanner.Classify | craftinginterpreters/Scanner.py:151-184 | a character starts a one-character token exactly when it is in the switch table, and is unexpected exactly when no branch of `scanToken` takes it |
| Scanner.NumberEndShape | craftinginterpreters/Scanner.py:224-229 | a number lexeme has the shape `\d+(\.\d+)?`, and no digit follows it |
| Scanner.NumberEnd | craftinginterpreters/Scanner.py:224-229 | the scan of a number ends within the source and takes at least the digit it starts at |
| Scanner.SkipWhileFirst | craftinginterpreters/Scanner.py:224-229 | every character a scan loop passes belongs to its class, and it stops at the end or at the first that does not |
| Scanner.LineAtMonotone | craftinginterpreters/Scanner.py:165-168 | the line number never decreases along the source |
| Scanner.NumberEndDot | craftinginterpreters/Scanner.py:226-227 | the dot is consumed only when a digit follows it, and a second dot never is |
| Scanner.NextLexeme | craftinginterpreters/Scanner.py:141-253 | each lexeme consumes at least one character and stays within the source; it never makes an EOF token, and a lexeme that makes a token reports no error |
| Scanner.ScannedTokens | craftinginterpreters/Scanner.py:134-136 | the tokens of the rest of the source, one per lexeme NextLexeme finds that makes one, each on the line where its lexeme ends: none is EOF, and their lines lie between the current and the final line and never decrease |
| Scanner.ScannedErrors | craftinginterpreters/Scanner.py:134-136 | the errors of the rest of the source, each on the line where its lexeme began, which lies between the current and the final line |
| Scanner.ScannedTokensStep | craftinginterpreters/Scanner.py:134-136 | scanning one lexeme moves its token from the part still to scan to the tokens already scanned |
| Scanner.ScannedErrorsStep | craftinginterpreters/Scanner.py:134-136 | scanning one lexeme moves its error from the part still to scan to the errors already reported, and a newline lexeme moves the column origin |
| Scanner.ScanEnded | craftinginterpreters/Scanner.py:137-139 | in the list `scanTokens` returns, only the last token is EOF and lines never decrease |
| Scanner.OperatorLexeme | craftinginterpreters/Scanner.py:66-69 | an operator lexeme is two characters long, with the `=` kind, exactly when `=` follows |
| Scanner.CommentLexeme | craftinginterpreters/Scanner.py:158-163 | `//` makes no token and no error; it skips up to the next newline but not past it |
| Scanner.StringLexeme | craftinginterpreters/Scanner.py:185-213 | a string token's literal is the text strictly between its quotes and holds no quote; with no closing quote there is no token, "Unterminated string" is reported and the scan runs to the end |
| Scanner.NumberLexeme | craftinginterpreters/Scanner.py:214-232 | a number token's lexeme has the shape `\d+(\.\d+)?`, its literal is that lexeme's value, and no digit follows it |
| Scanner.IdentifierLexeme | craftinginterpreters/Scanner.py:233-253 | an identifier lexeme is made of letters, digits and underscores and is as long as possible; a keyword gets its own kind |
| Scanner.Scanner.constructor | craftinginterpreters/Scanner.py:35-46 | starts with no tokens, at position 0 on line 1 |
| Scanner.Scanner.Advance | craftinginterpreters/Scanner.py:106-110 | returns the current character and steps past it |
| Scanner.Scanner.LookFor | craftinginterpreters/Scanner.py:111-116 | consumes the next character exactly when it is the one asked for |
| Scanner.Scanner.AddToken | craftinginterpreters/Scanner.py:117-126 | appends one token whose lexeme is `source[start:current]`, on the current line |
| Scanner.Scanner.SkipComment | craftinginterpreters/Scanner.py:161-163 | stops at the next newline or at the end |
| Scanner.Scanner.ScanString | craftinginterpreters/Scanner.py:185-213 | consumes NextLexeme's string lexeme and adds its token, keeping `line` equal to the newlines passed; an unterminated string is reported at the line and column where it began |
| Scanner.Scanner.SkipStringBody | craftinginterpreters/Scanner.py:203-206 | stops at the next quote or at the end, counting the newlines passed |
| Scanner.Scanner.SkipDigits | craftinginterpreters/Scanner.py:224-229 | stops at the first non-digit |
| Scanner.Scanner.ScanNumber | craftinginterpreters/Scanner.py:214-232 | consumes NextLexeme's number lexeme and adds its token |
| Scanner.Scanner.ScanIdentifier | craftinginterpreters/Scanner.py:233-253 | consumes NextLexeme's identifier lexeme and adds its token |
| Scanner.Scanner.SkipIdentChars | craftinginterpreters/Scanner.py:245-246 | stops at the first character that is not a letter, digit or underscore |
| Scanner.Scanner.ScanToken | craftinginterpreters/Scanner.py:141-184 | consumes exactly NextLexeme's lexeme, adds its token and reports its error; `line` keeps counting newlines, and a newline moves `lastNewline` |
| Scanner.Scanner.ScanPunctuation | craftinginterpreters/Scanner.py:152-163 | the switch-table branches of `scanToken` consume NextLexeme's lexeme and report no error |
| Scanner.Scanner.ScanOperator | craftinginterpreters/Scanner.py:66-69 | `!`, `=`, `<` and `>` take a following `=` exactly as NextLexeme does, and the token is the one NextLexeme emits |
| Scanner.Scanner.ScanSlash | craftinginterpreters/Scanner.py:70 | `/` alone is a SLASH token; `//` makes no token and skips to the end of the line, as NextLexeme says |
| Scanner.Scanner.ScanNext | craftinginterpreters/Scanner.py:134-136 | one more lexeme is scanned: the tokens so far followed by ScannedTokens of the rest, and the errors likewise, stay the same |
| Scanner.Scanner.ScanTokens | craftinginterpreters/Scanner.py:128-139 | the tokens added are exactly ScannedTokens of the source from where the scan starts, then one EOF token on the final line; the errors added are exactly ScannedErrors; no earlier token is EOF and token lines never decrease |
| Parser.Tighter | craftinginterpreters/Parser.py:497-558 | each precedence level's operands come from the next tighter level |
| Parser.FoldLastAtRoot | craftinginterpreters/Parser.py:518-558 | `Fold` associates to the left: the last operator of a chain is the root, over the fold of the rest |
| Parser.OperatorIndex | craftinginterpreters/Parser.py:497-558 | the level whose `match` lists an operator kind, counted from `or`; 6 for a kind no level lists |
| Parser.OperatorLevel | craftinginterpreters/Parser.py:497-558 | a kind belongs to a level's operators exactly when that level is the one OperatorIndex names, so no kind belongs to two levels |
| Parser.FoldRootIndex | craftinginterpreters/Parser.py:497-558 | a non-empty chain's fold has one of the level's own operators at its root |
| Parser.FoldUnique | craftinginterpreters/Parser.py:497-558 | a fold determines its chain: two chains of operands that bind tighter than the level, with the level's operators, fold to the same tree only when first operand, operators and operands are all equal; so `a-b-c` can only be `(a-b)-c` |
| Parser.CombineInjective | craftinginterpreters/Parser.py:518-558 | the node built for one operator step determines its left side, operator and right side |
| Parser.ChainPrefix | craftinginterpreters/Parser.py:518-558 | a chain minus its last operator and operand is still a chain of the level |
| Parser.ChainStep | craftinginterpreters/Parser.py:518-558 | one more matched operator and tighter operand extend the chain, and the node built is the fold of the longer chain |
| Parser.FirstSemicolon | craftinginterpreters/Parser.py:289-295 | the first `;` at or after a position, or the end of the tokens |
| Parser.BeforeFirstSemicolon | craftinginterpreters/Parser.py:289-295 | no token before the first `;` is a `;` |
| Parser.FirstSemicolonSkip | craftinginterpreters/Parser.py:289-295 | starting anywhere up to the first `;` finds the same `;` |
| Parser.AtFirstSemicolon | craftinginterpreters/Parser.py:289-295 | a `;` that no `;` precedes is the first one |
| Parser.PastToken | craftinginterpreters/Parser.py:289-295 | stepping over a token that is not `;` keeps the first `;` ahead |
| Parser.TokenLiteral | craftinginterpreters/Parser.py:628-629 | a NUMBER or STRING token's literal becomes the expression's literal |
| Parser.DesugaredBreaks | craftinginterpreters/Parser.py:340-360 | desugaring `for` into `while` keeps every `break` of the body inside the loop it builds, and adds none |
| Parser.Parser.constructor | craftinginterpreters/Parser.py:52-58 | starts at the first token of a list that ends with EOF |
| Parser.Parser.Advance | craftinginterpreters/Parser.py:109-112 | never moves past EOF, and returns the last consumed token |
| Parser.Parser.Match | craftinginterpreters/Parser.py:117-122 | consumes one token exactly when the current kind is one of those asked for |
| Parser.Parser.Consume | craftinginterpreters/Parser.py:127-130 | the expected token is consumed and returned; otherwise the error names the current token and nothing is consumed |
| Parser.Parser.Synchronize | craftinginterpreters/Parser.py:142-153 | steps over the offending token, then stops at EOF, just after a `;` (an offending `;` included) or just before a statement keyword, and passes no `;` and no statement keyword before that point |
| Parser.Parser.Parse | craftinginterpreters/Parser.py:69-77 | parses declarations to EOF; no `break` of the program lies outside a loop |
| Parser.Parser.Declaration | craftinginterpreters/Parser.py:197-213 | a failed declaration adds an error and yields no statement; started before EOF, it always consumes a token |
| Parser.Parser.DeclarationBody | craftinginterpreters/Parser.py:198-209 | `class`, `fun` and `var` lead to a class, function and variable declaration |
| Parser.Parser.Statement | craftinginterpreters/Parser.py:217-234 | the first token chooses the kind of statement; any other token starts an expression statement |
| Parser.Parser.Block | craftinginterpreters/Parser.py:239-244 | declarations up to and including the closing `}`; a missing `}` is the block error |
| Parser.Parser.ClassDecl | craftinginterpreters/Parser.py:248-259 | the class and its superclass are named by identifiers, and its methods' bodies are outside any loop |
| Parser.Parser.Superclass | craftinginterpreters/Parser.py:250-253 | there is a superclass exactly when `<` follows the class name |
| Parser.Parser.ClassBody | craftinginterpreters/Parser.py:255-258 | methods up to and including the closing `}` |
| Parser.Parser.Function | craftinginterpreters/Parser.py:265-284 | name and parameters are identifiers, at most 17 parameters pass the limit check, and the body is parsed outside any loop |
| Parser.Parser.VarStmt | craftinginterpreters/Parser.py:289-295 | there is an initializer exactly when `=` follows the name, and the declaration ends just after the first `;` |
| Parser.Parser.ForStmt | craftinginterpreters/Parser.py:305-360 | the result is the desugared `while` of the clauses: the outer block exactly when the first clause is not a bare `;`, a `true` condition exactly when the second is empty, the body block with the increment exactly when the third is not empty |
| Parser.Parser.ForClauses | craftinginterpreters/Parser.py:307-335 | the initializer is a `var` or an expression statement; each clause is present exactly when its tokens are not just the `;` or `)` that closes it |
| Parser.Parser.ForInitializer | craftinginterpreters/Parser.py:315-320 | a bare `;` gives no initializer, otherwise a `var` or an expression statement; the clause ends just after the first `;` |
| Parser.Parser.ForCondition | craftinginterpreters/Parser.py:324-327 | the condition is absent exactly when `;` follows at once; the clause ends just after the first `;` |
| Parser.Parser.IfStmt | craftinginterpreters/Parser.py:366-374 | builds an `if`, whose branches keep the enclosing loop context |
| Parser.Parser.PrintStmt | craftinginterpreters/Parser.py:378-381 | builds a `print` ending at its `;` |
| Parser.Parser.ReturnStmt | craftinginterpreters/Parser.py:388-394 | keeps the `return` keyword; the value is absent exactly when `;` follows at once |
| Parser.Parser.WhileStmt | craftinginterpreters/Parser.py:399-404 | the body is parsed inside a loop |
| Parser.Parser.BreakStmt | craftinginterpreters/Parser.py:408-412 | succeeds exactly inside a loop with `;` following; outside a loop the error names the `break` keyword; the statement's token is the `;` |
| Parser.Parser.ExprStmt | craftinginterpreters/Parser.py:416-419 | builds an expression statement ending just after the first `;` |
| Parser.Parser.Assignment | craftinginterpreters/Parser.py:465-492 | with `=`, a variable target becomes Assign and a property target Set, and any other target is an error at the `=`; without `=`, the operand itself |
| Parser.Parser.LeftFold | craftinginterpreters/Parser.py:497-558 | the result is the fold of a chain: a first operand and further operands, each binding tighter than the level, joined by the level's matched operators from left to right; by FoldUnique no other reading fits the tree |
| Parser.Parser.FoldOperands | craftinginterpreters/Parser.py:518-558 | each further operator of the level and its operand extend the chain, and the result is the fold of the whole chain |
| Parser.Parser.Expression | craftinginterpreters/Parser.py:460-461 | an expression, when one parses, consumes at least one token and the position never moves back |
| Parser.Parser.Operand | craftinginterpreters/Parser.py:497-558 | an operand of a precedence level, when one parses, consumes at least one token and binds tighter than the level: its root is no operator of that level or a looser one |
| Parser.Parser.Unary | craftinginterpreters/Parser.py:562-567 | `!` or `-` builds a Unary with that operator; the result is never a binary or logical node |
| Parser.Parser.Call | craftinginterpreters/Parser.py:576-587 | a call chain, when one parses, consumes at least one token, and it is never a binary or logical node |
| Parser.Parser.FinishCall | craftinginterpreters/Parser.py:589-604 | builds a Call on the callee ending at `)`, with fewer than 16 arguments |
| Parser.Parser.Primary | craftinginterpreters/Parser.py:612-629 | identifiers, `true`, `false`, `nil`, `this` and literals each give their own node, never a binary or logical one |
| Parser.Parser.PrimaryRest | craftinginterpreters/Parser.py:621-671 | `super` builds a Super and `(` a Grouping; `()` is `(nil)`; a binary operator with no left operand and EOF are errors with their own messages |
| Parser.Parser.SuperAccess | craftinginterpreters/Parser.py:621-626 | builds a Super on its keyword |
| Parser.Parser.Group | craftinginterpreters/Parser.py:644-652 | builds a Grouping; `()` groups `nil` |
| Resolver.Put | craftinginterpreters/Resolver.py:135-149 | storing into a scope dict binds the name; a new name goes last in the dict's order and an existing one keeps its place |
| Resolver.FirstUnreferenced | craftinginterpreters/Resolver.py:83-84 | finds a defined-but-unreferenced name when, and only when, one exists |
| Resolver.FirstUnreferencedIsFirst | craftinginterpreters/Resolver.py:83-84 | that name is the first such name in the order the dict iterates |
| Resolver.ScopeError | craftinginterpreters/Resolver.py:81-92 | the dying scope's error is "never referenced", on an IDENTIFIER token rebuilt from the name |
| Resolver.ScopeErrorIffUnreferenced | craftinginterpreters/Resolver.py:81-92 | a scope dies quietly exactly when none of its names was defined and left unreferenced; the error's token carries the line stored for the name |
| Resolver.Innermost | craftinginterpreters/Resolver.py:190-196 | the search from the innermost scope out finds the innermost scope holding the name, and none holds it when the search fails |
| Resolver.ParamScope | craftinginterpreters/Resolver.py:224-225 | the scope a function opens holds exactly its parameters' names |
| Resolver.ParamScopeLine | craftinginterpreters/Resolver.py:224-225 | a parameter that no later parameter repeats is defined at its own line, not yet referenced |
| Resolver.ReturnStepFor | craftinginterpreters/Resolver.py:255-264 | `return` is an error exactly at top level; inside a function the value is visited exactly when there is one |
| Resolver.Resolver.constructor | craftinginterpreters/Resolver.py:65-69 | no scope is open, and the resolver is outside any function |
| Resolver.Resolver.Resolve | craftinginterpreters/Resolver.py:108-113 | reports at most one error and keeps earlier reports; with no error the scope stack has the same height and the function type is as it was |
| Resolver.Resolver.ResolveStatements | craftinginterpreters/Resolver.py:120-122 | with no error the scope stack has the same height, every scope keeps its names, and the function type is as it was |
| Resolver.Resolver.BeginScope | craftinginterpreters/Resolver.py:75-76 | pushes one empty scope |
| Resolver.Resolver.EndScope | craftinginterpreters/Resolver.py:81-92 | pops the innermost scope and raises exactly ScopeError of it |
| Resolver.Resolver.Declare | craftinginterpreters/Resolver.py:135-141 | with a scope open, a name already in the innermost scope is "already declared" and changes nothing; otherwise it is stored as declared; with no scope nothing happens |
| Resolver.Resolver.Define | craftinginterpreters/Resolver.py:147-149 | with a scope open, the name holds its line in the innermost scope; with no scope nothing happens |
| Resolver.Resolver.ResolveLocal | craftinginterpreters/Resolver.py:190-196 | where the innermost scope holding the name is found, the interpreter records the number of scopes between and the name becomes referenced there; a name in no scope changes nothing |
| Resolver.Resolver.ResolveStmt | craftinginterpreters/Resolver.py:246-253 | with no error the scope stack has the same height, every scope keeps its names, and the function type is as it was |
| Resolver.Resolver.VisitBlock | craftinginterpreters/Resolver.py:157-160 | with no error the scope stack has the same height and every scope keeps its names |
| Resolver.Resolver.VisitVar | craftinginterpreters/Resolver.py:166-170 | a redeclaration in the innermost scope is an error; otherwise the name ends defined at its line |
| Resolver.Resolver.VisitFunction | craftinginterpreters/Resolver.py:211-214 | a function name already in the innermost scope is an error; otherwise, with a scope open, the name is in the innermost scope; the scope stack has the same height and every scope keeps its names. That the name is defined before the body is resolved is ResolveFunDecl's precondition, which VisitFunction meets |
| Resolver.Resolver.ResolveFunDecl | craftinginterpreters/Resolver.py:211-228 | called only once the function's own name is defined in the innermost scope, so a recursive call resolves; with no error the scope stack has the same height, every scope keeps its names, and the enclosing function type is restored |
| Resolver.Resolver.OpenFunctionScope | craftinginterpreters/Resolver.py:221-225 | the function type becomes the one given, and exactly one scope is pushed, holding ParamScope of the parameters |
| Resolver.Resolver.VisitIf | craftinginterpreters/Resolver.py:232-236 | with no error the scope stack has the same height and every scope keeps its names |
| Resolver.Resolver.VisitWhile | craftinginterpreters/Resolver.py:240-242 | with no error the scope stack has the same height and every scope keeps its names |
| Resolver.Resolver.VisitReturn | craftinginterpreters/Resolver.py:255-264 | top-level `return` is the "cannot return" error on its keyword; a bare `return;` in a function is accepted and changes nothing |
| Resolver.Resolver.ResolveExpr | craftinginterpreters/Resolver.py:272-299 | the only error an expression can raise is a read of a variable in its own initializer |
| Resolver.Resolver.ResolveExprs | craftinginterpreters/Resolver.py:284-285 | the only error the arguments can raise is a read of a variable in its own initializer |
| Resolver.Resolver.VisitVariable | craftinginterpreters/Resolver.py:272-276 | reading a name that the innermost scope holds as False is an error, and exactly then; otherwise the reference is resolved to its depth |
| Environment.Ancestor | craftinginterpreters/Environment.py:196-197 | the d-th ancestor lies no later in the arena than e, and strictly earlier when d > 0; None where the chain ends too soon |
| Environment.AncestorStable | craftinginterpreters/Environment.py:196-197 | ancestry depends only on the `enclosing` links, so it is the same in any arena that keeps them |
| Environment.Distance | craftinginterpreters/Environment.py:136-143 | the number of steps to the nearest environment binding the name; that environment does bind it |
| Environment.DistanceIsNearest | craftinginterpreters/Environment.py:136-143 | no nearer environment binds the name, and None means no environment of the chain does |
| Environment.FetchIsNearest | craftinginterpreters/Environment.py:136-143 | `fetch` succeeds exactly when some environment of the chain binds the name, and yields the nearest binding |
| Environment.FetchInHeap | craftinginterpreters/Environment.py:136-143 | every value a chain yields refers to existing objects |
| Environment.GetAt | craftinginterpreters/Environment.py:213-214 | `getAt` fails with an AttributeError exactly when the chain has fewer than d ancestors |
| Environment.GetAtAgreesWithFetch | craftinginterpreters/Environment.py:213-214 | at the true distance of a name, `getAt` finds what `fetch` finds |
| Environment.Defined | craftinginterpreters/Environment.py:169-170 | `define` binds the name in that environment and changes no other environment or link |
| Environment.Assigned | craftinginterpreters/Environment.py:153-160 | `store` succeeds exactly when some environment on the chain binds the name, and then the result is `define` in the nearest such environment: every other environment, enclosing or not, is unchanged; it adds no name and changes no link |
| Environment.FetchAfterAssign | craftinginterpreters/Environment.py:153-160 | assignment succeeds exactly when lookup would, and afterwards lookup from the same place yields the assigned value |
| Environment.FetchAfterDefine | craftinginterpreters/Environment.py:169-170 | after `define`, lookup from that environment yields the new value at distance 0, whatever outer bindings exist |
| Environment.FetchAfterDefineAtDistance | craftinginterpreters/Environment.py:213-217 | rebinding a name in the environment its distance leads to is what lookup from the starting environment then finds |
| Runtime.Heap.constructor | craftinginterpreters/Interpreter.py:98 | the heap starts with the empty globals environment and no other object |
| Runtime.Heap.NewFrame | craftinginterpreters/Environment.py:121-122 | `Environment(enclosing)` adds one empty environment enclosed by the given one |
| Runtime.Heap.Define | craftinginterpreters/Environment.py:169-170 | the environments become `Defined` of the old ones |
| Runtime.Heap.Store | craftinginterpreters/Environment.py:153-160 | rebinds as `Assigned` says, and the NameError leaves the heap unchanged |
| Runtime.Heap.AssignAt | craftinginterpreters/Environment.py:216-217 | fails with an AttributeError exactly when the chain ends too soon; otherwise stores from the d-th ancestor |
| Runtime.Heap.NewFunction | craftinginterpreters/LoxCallable.py:65-71 | adds one function object with its declaration, closure and initializer flag |
| Runtime.Heap.NewClass | craftinginterpreters/LoxCallable.py:158-164 | adds one class object with its name, methods and superclass |
| Runtime.Heap.NewInstance | craftinginterpreters/LoxCallable.py:216-218 | adds one instance of the class, without fields |
| Runtime.Heap.SetField | craftinginterpreters/LoxCallable.py:223-224 | the heap becomes WithField of the old one |
| Runtime.Heap.Bind | craftinginterpreters/LoxCallable.py:122-125 | adds a copy of the function whose closure is a new environment, enclosed by the old closure, that binds only `this` |
| Callables.FindMethod | craftinginterpreters/LoxCallable.py:180-186 | a method found is an existing function |
| Callables.SuperAt | craftinginterpreters/LoxCallable.py:184-185 | the class d steps up a superclass chain was declared no later than the class it starts from |
| Callables.InheritedMethodsFound | craftinginterpreters/LoxCallable.py:180-186 | a method declared by any class up the superclass chain is found |
| Callables.FoundMethodsDeclared | craftinginterpreters/LoxCallable.py:180-186 | a method found is declared by some class on the chain, and no nearer class declares that name |
| Callables.FindMethodStable | craftinginterpreters/LoxCallable.py:180-186 | method lookup gives the same answer in any later heap |
| Callables.Arity | craftinginterpreters/LoxCallable.py:191-195 | functions, classes and `clock` have an arity, and nothing else does; a class without `init` takes no arguments |
| Callables.BindParamsPositional | craftinginterpreters/LoxCallable.py:91-92 | with distinct parameter names and one argument each, every parameter is bound to its own argument |
| Callables.BindParams | craftinginterpreters/LoxCallable.py:91-92 | binding the parameters keeps every name already bound |
| Callables.BindParamsKeeps | craftinginterpreters/LoxCallable.py:91-92 | binding parameters touches no name that is not a parameter |
| Callables.PropertyOf | craftinginterpreters/LoxCallable.py:235-242 | a field wins over a method; with neither, the property is missing |
| Callables.WithField | craftinginterpreters/LoxCallable.py:223-224 | setting a field changes no environment, function or class |
| Callables.SetThenGet | craftinginterpreters/LoxCallable.py:223-242 | a field set and read back yields the value set, even over a method of the same name |
| Callables.CallResult | craftinginterpreters/LoxCallable.py:103-108 | an initializer returns `this` from its closure whether or not it executed `return`; any other function returns the returned value or nil |
| Operations.IsEqualCharacterized | craftinginterpreters/Interpreter.py:171-172 | Python `==`: a bool or number compares with a bool or number as a number; strings and nil compare by content; functions, classes and instances by identity |
| Operations.IsEqualEquivalence | craftinginterpreters/Interpreter.py:171-172 | Lox equality is reflexive, symmetric and transitive |
| Operations.ToFloat | craftinginterpreters/Interpreter.py:567 | `float` of a number or a bool is its numeric value; a TypeError comes exactly from values that are neither numbers nor strings |
| Operations.BinaryOp | craftinginterpreters/Interpreter.py:527-573 | a result is a bool, a number or a string; arithmetic and comparison results come from the operands as floats; a string result is the concatenation of two strings by `+` |
| Operations.NotEqualNegatesEqual | craftinginterpreters/Interpreter.py:535-538 | `!=` always answers the opposite of `==`, and neither can fail |
| Operations.ComparisonsDual | craftinginterpreters/Interpreter.py:565-567 | where `a < b` succeeds, `a >= b` succeeds with the opposite answer, and `b > a` is the same as `a < b` |
| Operations.DivideByZeroReported | craftinginterpreters/Interpreter.py:570-573 | dividing a number by zero (or by `false`) is the reported "Cannot divide by zero" |
| Operations.MixedPlusReported | craftinginterpreters/Interpreter.py:552-556 | `+` on values of different types is "Both operands must have the same type" |
| Operations.ArithmeticCommutes | craftinginterpreters/Interpreter.py:45-47 | `+` and `*` on numbers do not depend on operand order |
| Operations.UnaryOp | craftinginterpreters/Interpreter.py:410-418 | `!` is the negated truthiness; `-` negates a number, reports a string that is not a number, and crashes with a TypeError on nil, functions, classes and instances |
| Operations.UnaryTwice | craftinginterpreters/Interpreter.py:410-418 | negating a number twice gives it back, and `!!v` is v's truthiness |
| Operations.LogicalTruthiness | craftinginterpreters/Interpreter.py:343-355 | the value of `or` and `and` has the truthiness of the boolean or and and of their operands |
| Operations.Printed | craftinginterpreters/Interpreter.py:203-204 | one trailing ".0" is dropped, and any other text is printed as it is |
| Operations.NatText | craftinginterpreters/Interpreter.py:443 | the text of a count is a non-empty string of decimal digits |
| Interpreter.Interpreter.constructor | craftinginterpreters/Interpreter.py:82-115 | the globals are environment 0 and bind only `clock`; no variable has a recorded depth and nothing is printed |
| Interpreter.Interpreter.Resolve | craftinginterpreters/Interpreter.py:120-121 | records the depth of one variable reference and no other |
| Interpreter.LookUp | craftinginterpreters/Interpreter.py:381-391 | a reference without a recorded depth succeeds exactly when the globals bind the name, else "Undefined name"; with the depth the resolver computed, the value is the one the scope chain holds |
| Interpreter.LookUpAt | craftinginterpreters/Interpreter.py:391 | where `getAt` finds the name, that value |
| Interpreter.Interpreter.Evaluate | craftinginterpreters/Interpreter.py:333-339 | a pure expression evaluates to its PureValue in the state before the call and changes neither the heap, the output nor the clock; `clock()` reads the clock exactly once and changes nothing else; every result is on the heap and the environment is restored |
| Interpreter.PureValue | craftinginterpreters/Interpreter.py:333-418 | the value of a pure expression as `evaluate` computes it: a left operand first, an error stopping evaluation, the right operand of `and`/`or` only when the left does not decide; a value found is on the heap |
| Interpreter.PureValues | craftinginterpreters/Interpreter.py:435-437 | one value per argument, each the argument's PureValue |
| Interpreter.PureValuesStopAtError | craftinginterpreters/Interpreter.py:435-437 | once an argument fails, the whole argument list fails with that error |
| Interpreter.OnePlusTwo | craftinginterpreters/Interpreter.py:552-567 | `1 + 2` evaluates to 3 in any state |
| Interpreter.DivisionByZeroInExpression | craftinginterpreters/Interpreter.py:566-573 | a division whose divisor evaluates to zero is "Cannot divide by zero" at the `/` token |
| Interpreter.OrSkipsRight | craftinginterpreters/Interpreter.py:343-348 | `or` with a truthy left operand is the left operand's value, whatever the right one would do |
| Interpreter.Immediate | craftinginterpreters/Interpreter.py:194-262 | a statement that ends abruptly before changing anything: `break`, `return` of nil or of a pure value, or a pure expression or print that fails; never a normal completion |
| Interpreter.FirstAbrupt | craftinginterpreters/Interpreter.py:302-317 | the outcome of a block whose statements up to the first abrupt one are quiet; never a normal completion |
| Interpreter.FirstAbruptIgnoresRest | craftinginterpreters/Interpreter.py:310-314 | what follows the first abrupt statement does not change how the block ends |
| Interpreter.Interpreter.VisitBinary | craftinginterpreters/Interpreter.py:527-573 | both operands are evaluated, left first, and the result is BinaryOp of their values; a pure operand's value is its PureValue, and a pure `a op b` is its PureValue with nothing changed |
| Interpreter.Interpreter.VisitLogical | craftinginterpreters/Interpreter.py:343-355 | the right operand is evaluated only when the left does not decide, and the result is the deciding value; a pure operand's value is its PureValue, and a pure `a or b` / `a and b` is its PureValue with nothing changed |
| Interpreter.Interpreter.VisitUnary | craftinginterpreters/Interpreter.py:410-418 | the result is UnaryOp of the operand's value; a pure operand's value is its PureValue, and a pure `-a` / `!a` is its PureValue with nothing changed |
| Interpreter.Interpreter.VisitAssign | craftinginterpreters/Interpreter.py:396-406 | the result is the assigned value, which the variable then holds, in the globals or at the recorded depth; an unbound global is "Undefined name"; with a pure right-hand side, its error is the result with nothing changed, a global assignment succeeds exactly when the globals bind the name, and at the depth the resolver computed it succeeds with the value, which the variable then reads as |
| Interpreter.Interpreter.StoreVariable | craftinginterpreters/Interpreter.py:398-406 | the value stored is the value returned; a global succeeds exactly when the globals already bind the name, else "Undefined name"; at the depth where the scope chain binds the name it succeeds, and the name then reads as the value |
| Interpreter.Interpreter.VisitCall | craftinginterpreters/Interpreter.py:423-444 | a callee that is not a function, class or `clock` is "Only functions and classes can be called." before any argument is evaluated; a pure callee's value is its PureValue and its error is the result with nothing changed; pure arguments are their PureValues; a wrong number is "Expected n arguments but got m."; with the right number, a function call ends as FunctionCall says and a class call as ClassCall says, from the heap after the arguments; `clock()` returns the next reading and reads the clock exactly once |
| Interpreter.Interpreter.CallWithArguments | craftinginterpreters/Interpreter.py:435-444 | pure arguments are all evaluated exactly when their PureValues succeed, an argument error is the result with nothing changed, and a count other than the arity is "Expected n arguments but got m."; with the right count, a function call ends as FunctionCall says and a class call as ClassCall says; `clock` without arguments returns the next reading and changes only the clock count |
| Interpreter.Interpreter.EvaluateArguments | craftinginterpreters/Interpreter.py:435-437 | one value per argument expression, left to right; pure arguments give exactly PureValues, with nothing changed |
| Interpreter.Interpreter.ArityStable | craftinginterpreters/LoxCallable.py:73-74 | the arity of a callee never changes while the program runs |
| Interpreter.Interpreter.CallValue | craftinginterpreters/Interpreter.py:444 | `callee.call(self, params)`: a function call ends as FunctionCall says (the body's outcome gives the result), a class call as ClassCall says (the new instance), and `clock` returns the next reading of the clock parameter, counting one reading and changing nothing else |
| Interpreter.Interpreter.OpenCallFrame | craftinginterpreters/LoxCallable.py:82-92 | one new environment, enclosed by the closure and not the caller's environment, binds the parameters to the arguments in order (BindParams); nothing else changes |
| Interpreter.Interpreter.CallFunction | craftinginterpreters/LoxCallable.py:76-108 | FunctionCall: the body starts from the heap OpenCallFrame makes; a body that ends abruptly before any effect ends as FirstAbrupt says and an empty body completes normally; an error in the body escapes; otherwise the result is CallResult of the body's outcome: the returned value, nil, or `this` for an initializer; without fuel nothing changes |
| Interpreter.Interpreter.CallClass | craftinginterpreters/LoxCallable.py:200-209 | ClassCall: a class without `init` yields a new instance at once; with `init`, the method is bound to the new, fieldless instance (an environment binding `this` to it), its body starts in a frame binding the parameters and enclosed by that one, and the result is the new instance |
| Interpreter.ReturnFirstIsResult | craftinginterpreters/LoxCallable.py:103-108 | a function, not an initializer, whose body starts with `return e` for a pure `e` returns e's PureValue in the frame the call opens |
| Interpreter.Interpreter.VisitGet | craftinginterpreters/Interpreter.py:457-472 | only instances have properties; a pure object's value is its PureValue; the result is the field PropertyOf names, or a new function, the method's declaration closing over a new environment binding `this` to the instance, else "Undefined property" |
| Interpreter.Interpreter.VisitSet | craftinginterpreters/Interpreter.py:477-484 | only instances may have fields, checked before the value is evaluated; the result is the value stored in the field; with a pure object and value, the result is the value's PureValue and the heap is WithField of the old one, nothing else changing |
| Interpreter.Interpreter.SetProperty | craftinginterpreters/Interpreter.py:482-484 | afterwards the instance's property of that name is the value returned; with a pure value the heap is WithField of the old heap and nothing else changes |
| Interpreter.Interpreter.VisitSuper | craftinginterpreters/Interpreter.py:504-512 | without a recorded depth the lookup raises (the resolver records none for `super`); with one, `super` is read by name at that depth and `this` one environment nearer, as intended (see "## Findings"); a superclass method found by FindMethod gives a new function closing over a new environment binding `this`, with heap classes and instances unchanged; a `super` that is not a class raises AttributeError; no method is "Undefined property 'm'." with nothing changed; a failed lookup is the result with nothing changed |
| Interpreter.Interpreter.Execute | craftinginterpreters/Interpreter.py:186-283 | a statement that ends abruptly before any effect (Immediate: `break`, a bare `return`, which returns nil, a `return` of a pure value, a failing pure expression or print) ends that way with nothing changed, and a quiet expression statement completes normally; a `break` escapes a statement only from a `break` outside any loop or function body inside it, and a block that starts with `break` signals it at once, printing nothing; a `var` whose value is known beforehand and every `fun` change the heap exactly as Declares says and print nothing |
| Interpreter.Interpreter.ExecuteDeclaration | craftinginterpreters/Interpreter.py:209-253 | a `var`, `fun` or `class` declaration completes normally or with an error, never by `break` or `return`; a bound `var` name is in the current environment; a `var` whose value is known beforehand and every `fun` change the heap exactly as Declares says |
| Interpreter.Interpreter.ExecuteExpression | craftinginterpreters/Interpreter.py:194-197 | the value is discarded: a pure expression completes normally when its PureValue succeeds and is that error otherwise, with nothing changed |
| Interpreter.Interpreter.VisitBlock | craftinginterpreters/Interpreter.py:298-300 | the statements run in a new environment; a `break` escaping the block comes from one of its statements, and a leading `break` ends it at once without output |
| Interpreter.Interpreter.ExecuteFunction | craftinginterpreters/Interpreter.py:251-253 | the heap afterwards is the old one with one new function (the declaration, closing over the current environment, not an initializer) and the name defined to it in the current environment; nothing else changes |
| Interpreter.Interpreter.ExecutePrint | craftinginterpreters/Interpreter.py:201-205 | the value's text, without a trailing ".0", is the last line of the output; with a pure expression, exactly that line is added when its PureValue succeeds, and an error adds nothing and is the outcome |
| Interpreter.Interpreter.ExecuteVar | craftinginterpreters/Interpreter.py:209-213 | the name is bound in the current environment to `v`, nil without an initializer; when VarValue knows the value beforehand, an Ok value x gives `v == x` and a heap that differs from the old one only by the name defined to x, and an error is the outcome with nothing changed |
| Interpreter.Interpreter.ExecuteIf | craftinginterpreters/Interpreter.py:321-325 | a `break` escaping the `if` comes from one of its branches; with a pure condition, its error is the outcome with nothing changed, and otherwise the branch its truthiness picks runs: no else branch completes normally with nothing changed, and the taken branch's Immediate outcome or quiet completion is the `if`'s |
| Interpreter.Interpreter.ExecuteReturn | craftinginterpreters/Interpreter.py:258-262 | the outcome is a return carrying the value, nil when there is none; with a pure value, the return of its PureValue (or its error), with nothing changed |
| Interpreter.Interpreter.ExecuteBlock | craftinginterpreters/Interpreter.py:298-317 | statements run until one does not complete normally, and the previous environment is restored on every path; when FirstAbrupt finds a statement that ends abruptly after only quiet ones, that is the outcome and nothing changes, so no later statement runs; an empty block completes normally |
| Interpreter.Interpreter.ExecuteWhile | craftinginterpreters/Interpreter.py:269-275 | a `break` in the body ends this loop only and is not passed on; a pure falsy condition completes the loop at once and an erroneous one is the outcome, with nothing changed; with a truthy pure condition and a body `{ break; ... }`, the loop completes normally without output, as `while (true) { break; }` should; at most `fuel` passes, and a body that is `break` makes exactly one; observably, `while (clock()) break;` reads the clock exactly once, so the condition is not evaluated again after the `break`, and changes nothing else |
| Interpreter.Interpreter.WhileStep | craftinginterpreters/Interpreter.py:269-275 | one pass: a pure falsy or failing condition stops the loop with nothing changed, and a truthy one runs the body, whose `break` stops the loop normally; a body that is `break` always stops it, and with the condition `clock()` the pass reads the clock exactly once and ends normally with nothing else changed |
| Interpreter.Interpreter.ExecuteClass | craftinginterpreters/Interpreter.py:222-243 | the superclass is the value of the variable naming it: a lookup error is the outcome and a value that is not a class is "Superclass must be a class.", both with nothing changed; otherwise the heap afterwards is ClassDeclared of the old one with that superclass (or none), and nothing is printed |
| Interpreter.Interpreter.DeclareClass | craftinginterpreters/Interpreter.py:230-243 | the new class is the next one, and the heap afterwards is exactly ClassDeclared of the old one: the name bound to it in the current environment, a `super` environment when there is a superclass, one method object per declaration, and nothing else |
| Interpreter.Interpreter.SuperEnvironment | craftinginterpreters/Interpreter.py:232-234 | a new environment enclosed by the current one binds only `super`, to the superclass |
| Interpreter.Interpreter.MakeMethods | craftinginterpreters/Interpreter.py:235-239 | the functions added are MethodObjects of the declarations and the table is MethodTable: one entry per declared name, pointing to the function of that name's last declaration, closing over the given environment, an initializer exactly when the name is `init` |
| Interpreter.MethodTableKeys | craftinginterpreters/Interpreter.py:235-239 | the method table has one key per declared name and no other |
| Interpreter.MethodTableEntries | craftinginterpreters/Interpreter.py:235-239 | each entry of the method table is the function made for a declaration of that very name, closing over the given environment and marked as initializer exactly for `init` |
| Interpreter.MethodTableLast | craftinginterpreters/Interpreter.py:238-239 | a name's entry is a declaration of that name that no later declaration repeats: the last declaration wins |
| Interpreter.Interpreter.Interpret | craftinginterpreters/Interpreter.py:130-135 | the statements run in order and `outcomes` are their outcomes; the run completes exactly when every statement ran and none ended it (Ending); otherwise the last outcome ends it as Ending says; a program whose statements before the first abrupt one are quiet ends as FirstAbrupt says with nothing changed; the first EvaluationError is reported and otherwise no error is added |
| Interpreter.Ending | craftinginterpreters/Interpreter.py:130-135 | how a statement's outcome ends the run: an EvaluationError is reported, a `return` outside a function escapes, a normal completion or `break` goes on; an ending is never a completed run |
| AstPrinter.KindOfNodeName | craftinginterpreters/AstPrinter.py:18-43 | the class name in the base visitor's message identifies the node kind |
| AstPrinter.NodeNamesDistinct | craftinginterpreters/AstPrinter.py:18-43 | the base visitor's messages for two different node kinds differ |
| AstPrinter.ThisReportedAsUnary | craftinginterpreters/AstPrinter.py:38-41 | as written, a This node and a Unary node raise the same message although they are different kinds |
| AstPrinter.PrintAll | craftinginterpreters/AstPrinter.py:50-56 | a list printed succeeds with one text per expression |
| AstPrinter.ItemTexts | craftinginterpreters/AstPrinter.py:61-76 | the items of `parenthesize2` printed succeed with one text per item |
| AstPrinter.PrintOkIffPrintable | craftinginterpreters/AstPrinter.py:18-95 | printing succeeds exactly on trees built only of literals, groupings, unary, binary and assignment nodes |
| AstPrinter.BinaryText | craftinginterpreters/AstPrinter.py:83-84 | a binary node prints as `( op left right )` |
| AstPrinter.BinaryFirstError | craftinginterpreters/AstPrinter.py:50-56 | the left operand's error comes first; with a printable left operand the right operand's error is the node's |
| AstPrinter.UnaryText | craftinginterpreters/AstPrinter.py:94-95 | a unary node prints as `( op operand )` |
| AstPrinter.GroupingText | craftinginterpreters/AstPrinter.py:86-87 | a grouping prints as `( group inner )` |
| AstPrinter.AssignText | craftinginterpreters/AstPrinter.py:80-81 | an assignment prints as `( = name value )` |
| AstPrinter.Parenthesize2OfExprs | craftinginterpreters/AstPrinter.py:61-76 | on expressions alone `parenthesize2` gives exactly what `parenthesize` gives |
| AstPrinter.ItemTextsRefuses | craftinginterpreters/AstPrinter.py:64-74 | the first statement item is refused with NotImplementedError, the first item of another type with TypeError |
| AstPrinter.BookExample | craftinginterpreters/AstPrinter.py:97-99 | `-123 * (45.67)` prints as `( * ( - 123 ) ( group 45.67 ) )` |
| MakeAsts.SplitOn | craftinginterpreters/make_ASTs.py:107 | `split(sep)` gives at least one piece, none containing the separator |
| MakeAsts.JoinSplit | craftinginterpreters/make_ASTs.py:107 | joining the pieces of a split with the separator gives back the string |
| MakeAsts.SplitCount | craftinginterpreters/make_ASTs.py:107 | a split gives one more piece than there are separators |
| MakeAsts.SplitWithout | craftinginterpreters/make_ASTs.py:110 | a string without the separator splits into itself alone |
| MakeAsts.SplitFirst | craftinginterpreters/make_ASTs.py:107 | the piece before the first separator comes first, the split of the rest after it |
| MakeAsts.SplitJoin | craftinginterpreters/make_ASTs.py:110 | splitting a join of separator-free pieces gives back the pieces |
| MakeAsts.NotInJoin | craftinginterpreters/make_ASTs.py:118 | a character in none of the pieces and not the separator is not in their join |
| MakeAsts.WordEnd | craftinginterpreters/make_ASTs.py:111 | the end of a maximal run of non-space characters |
| MakeAsts.Words | craftinginterpreters/make_ASTs.py:111 | `split()` gives non-empty words without spaces |
| MakeAsts.WordsFirst | craftinginterpreters/make_ASTs.py:111 | a word followed by a space or the end is the first word of the split |
| MakeAsts.WordsAfterSpace | craftinginterpreters/make_ASTs.py:111 | leading spaces do not count |
| MakeAsts.FieldWords | craftinginterpreters/make_ASTs.py:111 | a field ` Type name` splits into exactly its type and its name |
| MakeAsts.StripLeft | craftinginterpreters/make_ASTs.py:108 | no space is left at the start |
| MakeAsts.StripRight | craftinginterpreters/make_ASTs.py:108 | no space is left at the end, and a string that starts with a non-space keeps its first character |
| MakeAsts.Strip | craftinginterpreters/make_ASTs.py:108 | no space at either end |
| MakeAsts.StripPadded | craftinginterpreters/make_ASTs.py:108 | a space-free class name followed by padding strips to the name |
| MakeAsts.Signature | craftinginterpreters/make_ASTs.py:110-114 | one `name:Type` entry per field |
| MakeAsts.SignatureStopsAtError | craftinginterpreters/make_ASTs.py:110-114 | the first malformed field decides the result, whatever follows it |
| MakeAsts.SpecNeedsOneColon | craftinginterpreters/make_ASTs.py:107 | a subclass line parses only with exactly one colon, and otherwise fails with the unpacking error for its number of pieces |
| MakeAsts.NoFieldsRefused | craftinginterpreters/make_ASTs.py:110-111 | a line with nothing after its colon fails: its one field has no words to unpack |
| MakeAsts.SignatureOfFields | craftinginterpreters/make_ASTs.py:110-114 | well-formed fields give the entries `name:Type`, in order |
| MakeAsts.ParseRendered | craftinginterpreters/make_ASTs.py:107-114 | a well-formed subclass line parses back to its class name and one entry per field, in order |
| MakeAsts.AssignLineParses | craftinginterpreters/make_ASTs.py:72 | the table's line for assignments gives the class `Assign` with entries `name:Token` and `value:Expr` |
| MakeAsts.FieldNameOfEntry | craftinginterpreters/make_ASTs.py:122 | the name part of an entry is the field's name |
| MakeAsts.ParseAll | craftinginterpreters/make_ASTs.py:106-114 | one parse result per line of the table |
| MakeAsts.GenerateGrows | craftinginterpreters/make_ASTs.py:98-126 | writes are only appended: a prefix of the table writes a prefix of the whole output |
| MakeAsts.OutputStartsWithHeader | craftinginterpreters/make_ASTs.py:100-105 | the header is written first, and only the statement module gets the extra import |
| MakeAsts.GenerateStep | craftinginterpreters/make_ASTs.py:106-126 | one more line either writes its subclass or stops everything with its error |
| MakeAsts.GenerateStopsAtError | craftinginterpreters/make_ASTs.py:106-107 | nothing is written after the first malformed line |
| MakeAsts.GenerateSucceedsIff | craftinginterpreters/make_ASTs.py:106-126 | the generation succeeds exactly when every line is well formed |
| MakeAsts.GenerateErrorIsFirst | craftinginterpreters/make_ASTs.py:106-114 | a failed generation reports the error of the first malformed line |
| MakeAsts.OutputErrorIsFirst | craftinginterpreters/make_ASTs.py:98-126 | generation from the table's strings fails exactly when one of them does not parse, with the first one's error |
| MakeAsts.StoresEveryField | craftinginterpreters/make_ASTs.py:121-123 | each generated `__init__` stores every field under its own name, in the order of the line |
| MakeAsts.TextFile.constructor | craftinginterpreters/make_ASTs.py:98 | a new file holds no writes |
| MakeAsts.TextFile.Write | craftinginterpreters/make_ASTs.py:102 | a write is appended after the earlier ones |
| MakeAsts.ParseSubclass | craftinginterpreters/make_ASTs.py:107-114 | the two unpacking loops compute ParseSpec of the line |
| MakeAsts.WriteSubclass | craftinginterpreters/make_ASTs.py:115-126 | the subclass start, one store per entry and its `accept` are appended |
| MakeAsts.WriteHeader | craftinginterpreters/make_ASTs.py:100-105 | the header, and for the statement module the extra import, are appended |
| MakeAsts.WriteLine | craftinginterpreters/make_ASTs.py:106-126 | a malformed line writes nothing; a well-formed one appends its subclass |
| MakeAsts.MakeOneTree | craftinginterpreters/make_ASTs.py:98-126 | the file receives exactly the writes Output gives for the table, and the error is Output's |
| Findings.BoundVariableUnreadableAsWritten | craftinginterpreters/Interpreter.py:381-391 | as written, reading a variable that is bound where the resolver said fails with an AttributeError |
| Findings.SuperUnreadableAsWritten | craftinginterpreters/Interpreter.py:504-507 | as written, `super` bound at the recorded depth cannot be read: `getAt(depth, "super")` hands `get` a str and raises AttributeError; handed the name, the same read finds the nearest binding |
| Findings.GlobalAssignmentFailsAsWritten | craftinginterpreters/Interpreter.py:396-401 | as written, assigning to a declared global fails with an AttributeError although the assignment is possible |
| Findings.LocalAssignmentIsNilAsWritten | craftinginterpreters/Interpreter.py:402-406 | as written, the local branch fails with the AttributeError of the str name; handed the token, at the resolver's depth the variable then reads as the new value, but the assignment evaluates to nil instead of it |
| Findings.ClassDeclarationFailsAsWritten | craftinginterpreters/Interpreter.py:230-243 | as written, every class declaration fails with the AttributeError of `assign` handed a str; handed the token, the name would be bound to the class |
| Findings.BlockBreakLeavesFlag | craftinginterpreters/Interpreter.py:298-317 | as written, `{ break; }` sets the flag in the block's own environment, which is then dropped |
| Findings.BreakInBlockSpinsAsWritten | craftinginterpreters/Interpreter.py:269-283 | as written, `while (true) { break; }` runs out of any fuel |
| Findings.BareBreakStopsAsWritten | craftinginterpreters/Interpreter.py:269-283 | as written, `while (true) break;` stops after one run |
| Findings.BreakEvaluatesConditionAgainAsWritten | craftinginterpreters/Interpreter.py:269-275 | as written, `while (f()) break;` evaluates the condition twice: once to enter the body and once more after the `break` before the flag stops the loop |
| Findings.BareReturnCrashesAsWritten | craftinginterpreters/Resolver.py:255-264 | as written, a bare `return;` in a function stops the resolver, where the corrected step resolves nothing |
| Findings.RunBlockAsWritten | craftinginterpreters/Interpreter.py:302-317 | as written, a block stops after the statement that leaves the flag false in its own environment, and keeps the chain's length |
| Findings.LoopSpins | craftinginterpreters/Interpreter.py:269-275 | as written, a loop whose body is `{ break; }` never sees the flag turn false |

## Left out

- The `plox` front end: reading files, the prompt loop and printing errors. Scanner, parser and resolver errors are collected in sequences, and the runtime error is the result of `Interpret`. Note that `plox` never runs the resolver, so every local would be looked up in the globals; the model runs the passes in order, as the book intends.
- Printing itself. `print` appends a line to the interpreter's `output`, and `AstPrinter` returns its text.
- Floating point. Numbers are exact reals, so there is no rounding, infinity or NaN. `str(float)` is the parameter `numText` and `float(text)` the parameter `parse`.
- `time.time()` is the parameter `clock`, read at the number of earlier calls.
- Unicode. `isdecimal`, `isalpha` and `isspace` are modelled on ASCII characters only.
- Python's recursion limit, and non-termination. The interpreter's methods carry fuel, and running out of it is the outcome `OutOfFuel`, which the source does not have. The resolver's and printer's recursions terminate on the tree's size.
- The visitor and generated-class boilerplate (`accept`, `ExprVisitorClass`, `StmtVisitorClass`, `GenericVisitor`, `AstVisitorClass`) and `visitortest`. Dispatch is a `match` on the node. `GenericVisitor`'s empty methods are kept: the resolver does nothing for class declarations, `get`, `set`, `this`, `super`, `break` and literals.
- A consequence of that: `this` and `super` never get a depth. `this` is then looked up in the globals and reported as undefined, and `super` makes `visitSuper` raise. The model keeps both.
- The `__main__` block of `make_ASTs.py`, which checks a path and opens the two output files. `make_one_tree` writes to a `TextFile` that only records its writes; the templates are `Write` values rather than formatted text.
- `Parser.sequence`, the comma operator. Nothing calls it except itself, so it cannot be reached.
- The comment loop of `scanToken` splits its `while` condition over two lines without parentheses, which Python rejects when the module loads. The model uses the evident condition: skip until a newline or the end.
- `finish_call` builds its ParseError with `self.peek`, the method, instead of the token `self.peek()`. The model reports the error at the next token.
- CONTINUE. The globals' `CONTINUE` flag and `visitBreak`'s use of it are replaced by a break outcome of statement execution. They are modelled as written only in `findings.dfy`. One consequence: as written, the loop condition is evaluated once more after a `break` before the flag is read, so `while (f()) break;` calls `f` twice; the model ends the loop at the `break` without evaluating the condition again (see "## Findings").
- Duplicate parameter names. `resolveFunDecl` defines parameters without declaring them, so they are not reported, and the model keeps that. `BindParamsPositional` therefore asks for distinct names; with repeated names the last argument wins, as with Python's `zip` and `define`.
- Parser.Parser.Parse: a failed declaration leaves `None` in the Python list. The model drops it, and it does not state that `parse` returns the list unchanged when no error escapes `declaration`. `declaration` catches every ParseError, so `parse`'s own handler is unreachable and is not modelled.
- Parser.Parser.Expression: the contract states only that a parse consumes tokens and never moves back. The shape of the tree is stated by `Assignment`, `LeftFold`, `Unary`, `FinishCall` and `Primary`.
- Parser.Parser.Call: states progress and that the result is not a binary or logical node. The shape of a call is stated by `FinishCall`.
- Resolver.Resolver.ResolveExpr: states which error an expression can raise, not which depths it records. The depths are stated by `ResolveLocal` and `VisitVariable`.
- Interpreter.Interpreter.Evaluate: states the result outright only for pure expressions (PureValue). For calls, assignments, property access and `super` it states what their `Visit` methods state, which ties their operands to PureValue only where those are pure.
- Interpreter.Interpreter.VisitBinary: ties `lhs` and `rhs` to the operands only where an operand is pure; an operand with effects is known only through BinaryOp of the value it produced. The same holds for VisitLogical, VisitUnary, VisitAssign, VisitCall, VisitGet, VisitSet, ExecutePrint and ExecuteReturn.
- Interpreter.Interpreter.ExecuteBlock: states that nothing after the first abrupt statement runs only when every statement before it is quiet (FirstAbrupt). After a statement with effects, the model has no function of the new state to say where the block stops.
- Interpreter.Interpreter.CallFunction: ties the outcome of the body to FirstAbrupt in the frame OpenCallFrame makes, so only for bodies whose leading statements are quiet. A body with effects is stated through CallResult and the outcome alone.
- Interpreter.Interpreter.ExecuteWhile: states the outcome for the first pass of a pure condition, not for a loop that runs its body more than once.
- Interpreter.Interpreter.ExecuteIf: states which branch runs only for a pure condition; with a condition that has effects, only where an escaping `break` comes from.
- Interpreter.Interpreter.Interpret: ties the outcomes to the program through FirstAbrupt only while the statements before the first abrupt one are quiet; the output of a program with effects is stated statement by statement, not as a function of the whole program.
- ForStmt: the clauses are tied to the tokens by where each is present and where each ends. The condition and increment trees themselves, and the body, are stated by `Expression` and `Statement`, not restated here.
- LeftFold: the contract fixes the shape of the chain, not which tokens each operand was parsed from. Each operand's own shape is stated by the methods of the tighter levels.
- Interpreter.Interpreter.Execute: with too little fuel, a statement ends in `OutOfFuel` where the source would still be running.

## Findings

| source | as written | input that shows it | evidently intended | confidence | as-written member | corrected member |
|---|---|---|---|---|---|---|
| craftinginterpreters/Interpreter.py:269-283 | `visitBreak` defines `CONTINUE` as false in the current environment. A block's environment is discarded when the block ends, so the loop, which reads `CONTINUE` in its own environment, never sees it | `while (true) { break; }` | `break` ends the nearest enclosing loop, also from inside a block | not executed | Findings.BreakInBlockSpinsAsWritten | Interpreter.Interpreter.ExecuteWhile |
| craftinginterpreters/Interpreter.py:381-391 | `lookUpVariable` passes `name.lexeme`, a str, to `get` and `getAt`, which read `.lexeme` from it again and raise AttributeError | `var a = 1; print a;` | the name token is passed, and a bound variable reads its value | not executed | Findings.BoundVariableUnreadableAsWritten | Interpreter.LookUp |
| craftinginterpreters/Interpreter.py:504-507 | `visitSuper` passes the strs `"super"` and `"this"` to `getAt`, whose `get` reads `.lexeme` from them and raises AttributeError before any method is looked up. The defect is latent: the resolver records no depth for a `super` expression, so as written `self.locals[client]` raises KeyError first | `class A { m() {} } class B < A { m() { super.m(); } } B().m();` once a depth is recorded for `super` | `super` and `this` are read at their depths by name, and the superclass method is bound to `this` | not executed | Findings.SuperUnreadableAsWritten | Interpreter.Interpreter.VisitSuper |
| craftinginterpreters/Interpreter.py:396-401 | `visitAssign` passes `name.lexeme`, a str, to `assign`, which reads `.lexeme` from it again | `var a = 1; a = 2;` | the global is assigned | not executed | Findings.GlobalAssignmentFailsAsWritten | Interpreter.Interpreter.VisitAssign |
| craftinginterpreters/Interpreter.py:402-406 | for a local, `visitAssign` returns what `assignAt` returns, and `assignAt` has no `return`, so that is None. The defect is latent: as written the call fails first, because it too is handed the str `name.lexeme` | `{ var a; print a = 1; print a; }` once `assignAt` is handed the token: it prints `nil`, then `1` | an assignment evaluates to the assigned value | not executed | Findings.LocalAssignmentIsNilAsWritten | Interpreter.Interpreter.StoreVariable |
| craftinginterpreters/Interpreter.py:230-243 | `visitClass` binds the new class with `assign(name_str, klass)`, handing `assign` a str, which reads `.lexeme` from it and raises AttributeError | `class A {}` | the name that `define` has just bound is assigned the class | not executed | Findings.ClassDeclarationFailsAsWritten | Interpreter.Interpreter.DeclareClass |
| craftinginterpreters/Resolver.py:255-264 | inside a function, `visitReturn` calls `client.value.accept` without checking for a missing value, but the parser builds a bare `return;` with None | `fun f() { return; }` | a bare `return` has no value to resolve | not executed | Findings.BareReturnCrashesAsWritten | Resolver.ReturnStepFor |
| craftinginterpreters/AstPrinter.py:38-39 | the base visitor's `visitThis` raises the message of `visitUnary` | printing `this` | the message names `Expr.This` | not executed | AstPrinter.ThisReportedAsUnary | AstPrinter.NodeNamesDistinct |
| craftinginterpreters/Interpreter.py:269-275 | after the body runs `break`, the loop test evaluates the condition once more and only then reads the flag | `while (clock()) break;` reads the clock twice, as `while (f()) break;` calls `f` twice | `break` leaves the loop at once, without evaluating the condition again: the corrected loop reads the clock once | not executed | Findings.BreakEvaluatesConditionAgainAsWritten | Interpreter.Interpreter.ExecuteWhile |
