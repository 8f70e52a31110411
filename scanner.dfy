/**
 * The scanner (craftinginterpreters/Scanner.py): a cursor walks the source
 * text, one lexeme at a time, appending tokens and counting lines.
 *
 * The character classes are the ASCII halves of Python's `isspace`,
 * `isdigit`/`isdecimal`, `isidentifier` and `isalnum`. A number token
 * carries the exact decimal value of its lexeme. Errors go to the
 * `errors` sequence in the order `error_report` would receive them.
 */
module Scanner {
  import opened Basics
  import opened Tokens

  /** What `error_report(line, message, where=...)` receives. */
  datatype ScanError = ScanError(line: int, message: string, where: int)

  predicate IsDigit(c: char) { '0' <= c <= '9' }

  /** `isidentifier` of one character: a letter or an underscore. */
  predicate IsAlpha(c: char) { 'a' <= c <= 'z' || 'A' <= c <= 'Z' || c == '_' }

  /** The loop test of `identifier`: `isalnum()` or an underscore. */
  predicate IsIdentChar(c: char) { IsAlpha(c) || IsDigit(c) }

  /** `isspace` on ASCII: space, tab through carriage return, and the four separators 0x1c-0x1f. */
  predicate IsSpace(c: char) {
    var n := c as int;
    n == 32 || 9 <= n <= 13 || 28 <= n <= 31
  }

  /** The character classes the scanner's loops run over. */
  datatype CharClass = Digits | IdentChars | NotNewlines | NotQuotes

  predicate In(cls: CharClass, c: char) {
    match cls
    case Digits => IsDigit(c)
    case IdentChars => IsIdentChar(c)
    case NotNewlines => c != '\n'
    case NotQuotes => c != '"'
  }

  /** The one-character entries of the switch table. */
  function SingleKind(c: char): (k: Option<TokenKind>)
    ensures k.Some? ==> k.value != Eof
  {
    match c
    case '(' => Some(LeftParen)
    case ')' => Some(RightParen)
    case '{' => Some(LeftBrace)
    case '}' => Some(RightBrace)
    case ',' => Some(Comma)
    case '.' => Some(Dot)
    case '-' => Some(Minus)
    case '+' => Some(Plus)
    case ';' => Some(Semicolon)
    case '*' => Some(Star)
    case _ => None
  }

  /** `!`, `=`, `<` and `>` and their `=`-suffixed forms. */
  predicate IsOperator(c: char) { c == '!' || c == '=' || c == '<' || c == '>' }

  function OperatorKind(c: char, withEqual: bool): (k: TokenKind)
    requires IsOperator(c)
    ensures k != Eof
    ensures withEqual <==> k in {BangEqual, EqualEqual, LessEqual, GreaterEqual}
  {
    match c
    case '!' => if withEqual then BangEqual else Bang
    case '=' => if withEqual then EqualEqual else Equal
    case '<' => if withEqual then LessEqual else Less
    case _ => if withEqual then GreaterEqual else Greater
  }

  /** Which branch of `scanToken` a first character takes, checked in the source's order. */
  datatype LexemeStart =
    | OneChar(kind: TokenKind) | Operator | SlashStart | NewlineStart | Blank
    | QuoteStart | DigitStart | AlphaStart | Unexpected

  function Classify(c: char): (r: LexemeStart)
    ensures r.OneChar? <==> SingleKind(c).Some?
    ensures r.Unexpected? <==>
      !(SingleKind(c).Some? || IsOperator(c) || c == '/' || IsSpace(c) || c == '"' || IsDigit(c) || IsAlpha(c))
  {
    if SingleKind(c).Some? then OneChar(SingleKind(c).value)
    else if IsOperator(c) then Operator
    else if c == '/' then SlashStart
    else if c == '\n' then NewlineStart
    else if IsSpace(c) then Blank
    else if c == '"' then QuoteStart
    else if IsDigit(c) then DigitStart
    else if IsAlpha(c) then AlphaStart
    else Unexpected
  }

  /** The first index at or after i whose character fails p, or the end of s. */
  function SkipWhile(s: string, i: nat, p: CharClass): (j: nat)
    requires i <= |s|
    ensures i <= j <= |s|
    decreases |s| - i
  {
    if i == |s| || !In(p, s[i]) then i else SkipWhile(s, i + 1, p)
  }

  /** SkipWhile stops at the first character that fails p: every character it passes satisfies p. */
  lemma {:induction false} SkipWhileFirst(s: string, i: nat, p: CharClass)
    requires i <= |s|
    ensures forall k :: i <= k < SkipWhile(s, i, p) ==> In(p, s[k])
    ensures SkipWhile(s, i, p) == |s| || !In(p, s[SkipWhile(s, i, p)])
    decreases |s| - i
  {
    if i < |s| && In(p, s[i]) {
      SkipWhileFirst(s, i + 1, p);
    }
  }

  /** Where `number_lit` stops: digits, then a dot and digits only when a digit follows the dot. */
  function NumberEnd(s: string, i: nat): (e: nat)
    requires i <= |s|
    ensures i <= e <= |s|
    ensures i < |s| && IsDigit(s[i]) ==> i < e
  {
    var j := SkipWhile(s, i, Digits);
    if j + 1 < |s| && s[j] == '.' && IsDigit(s[j + 1]) then SkipWhile(s, j + 1, Digits) else j
  }

  predicate AllDigits(t: string) { forall k :: 0 <= k < |t| ==> IsDigit(t[k]) }

  /** The shape `\d+(\.\d+)?`. */
  predicate IsNumberText(t: string) {
    (|t| > 0 && AllDigits(t)) ||
    exists d :: 0 < d < |t| - 1 && t[d] == '.' && AllDigits(t[..d]) && AllDigits(t[d + 1..])
  }

  /** The value of a string of decimal digits. */
  function DigitsValue(ds: string): int {
    if |ds| == 0 then 0 else 10 * DigitsValue(ds[..|ds| - 1]) + (ds[|ds| - 1] as int - '0' as int)
  }

  function Pow10(n: nat): (p: nat)
    ensures p >= 1
  {
    if n == 0 then 1 else 10 * Pow10(n - 1)
  }

  /** The exact value of a number lexeme (the model's stand-in for `float`). */
  function NumberValue(t: string): real {
    var j := SkipWhile(t, 0, Digits);
    var fraction := if j < |t| then t[j + 1..] else "";
    DigitsValue(t[..j]) as real + DigitsValue(fraction) as real / Pow10(|fraction|) as real
  }

  /** The line number at index i: one more than the newlines before it. */
  function LineAt(s: string, i: nat): int
    requires i <= |s|
  {
    if i == 0 then 1 else LineAt(s, i - 1) + (if s[i - 1] == '\n' then 1 else 0)
  }

  /** A number lexeme has the shape `\d+(\.\d+)?`, and the scan stops before any further digit. */
  lemma NumberEndShape(s: string, i: nat)
    requires i < |s| && IsDigit(s[i])
    ensures i < NumberEnd(s, i) <= |s|
    ensures IsNumberText(s[i..NumberEnd(s, i)])
    ensures NumberEnd(s, i) == |s| || !IsDigit(s[NumberEnd(s, i)])
  {
    var j := SkipWhile(s, i, Digits);
    var e := NumberEnd(s, i);
    var t := s[i..e];
    SkipWhileFirst(s, i, Digits);
    if j + 1 < |s| {
      SkipWhileFirst(s, j + 1, Digits);
    }
    if j + 1 < |s| && s[j] == '.' && IsDigit(s[j + 1]) {
      var d := j - i;
      assert t[d] == '.';
      assert t[..d] == s[i..j];
      assert t[d + 1..] == s[j + 1..e];
      assert AllDigits(t[..d]) && AllDigits(t[d + 1..]);
    } else {
      assert AllDigits(t);
    }
  }

  /** The identifier branch of NextLexeme, spelled out. */
  lemma IdentLexemeEnd(s: string, i: nat)
    requires i < |s| && IsAlpha(s[i])
    ensures var e := SkipWhile(s, i + 1, IdentChars);
      NextLexeme(s, i) == Lexeme(e, Some(IdentifierKind(s[i..e])), NoLiteral, None)
  {
    assert Classify(s[i]).AlphaStart?;
  }

  /** The string branch of NextLexeme, spelled out. */
  lemma StringLexemeEnd(s: string, i: nat)
    requires i < |s| && s[i] == '"'
    ensures var q := SkipWhile(s, i + 1, NotQuotes);
      NextLexeme(s, i) ==
        if q < |s| then Lexeme(q + 1, Some(String), StringLit(s[i + 1..q]), None)
        else Lexeme(|s|, None, NoLiteral, Some("Unterminated string"))
  {
    assert Classify(s[i]).QuoteStart?;
  }

  /** The digit branch of NextLexeme, spelled out. */
  lemma NumberLexemeEnd(s: string, i: nat)
    requires i < |s| && IsDigit(s[i])
    ensures var e := NumberEnd(s, i);
      NextLexeme(s, i) == Lexeme(e, Some(Number), NumberLit(NumberValue(s[i..e])), None)
  {
    assert Classify(s[i]).DigitStart?;
  }

  /** A dot is consumed only when a digit follows it; a second dot is never consumed. */
  lemma NumberEndDot(s: string, i: nat)
    requires i < |s| && IsDigit(s[i])
    ensures var e := NumberEnd(s, i);
      (e + 1 < |s| && s[e] == '.' && IsDigit(s[e + 1])) ==> exists d :: i < d < e && s[d] == '.'
  {
    var j := SkipWhile(s, i, Digits);
    if j + 1 < |s| && s[j] == '.' && IsDigit(s[j + 1]) {
      assert i < j < NumberEnd(s, i) && s[j] == '.';
    }
  }

  /** One lexeme as `scanToken` finds it: where it ends, the token kind and literal it adds (if any), the error it reports (if any). */
  datatype Lexeme = Lexeme(end: nat, kind: Option<TokenKind>, literal: Literal, error: Option<string>)

  /** The lexeme starting at index i, branch by branch as `scanToken` tests the first character. */
  function NextLexeme(s: string, i: nat): (r: Lexeme)
    requires i < |s|
    ensures i < r.end <= |s|
    ensures r.kind != Some(Eof)
    ensures r.kind.Some? ==> r.error.None?
  {
    match Classify(s[i])
    case OneChar(k) => Lexeme(i + 1, Some(k), NoLiteral, None)
    case Operator =>
      var withEqual := i + 1 < |s| && s[i + 1] == '=';
      Lexeme(if withEqual then i + 2 else i + 1, Some(OperatorKind(s[i], withEqual)), NoLiteral, None)
    case SlashStart =>
      if i + 1 < |s| && s[i + 1] == '/' then Lexeme(SkipWhile(s, i + 2, NotNewlines), None, NoLiteral, None)
      else Lexeme(i + 1, Some(Slash), NoLiteral, None)
    case NewlineStart => Lexeme(i + 1, None, NoLiteral, None)
    case Blank => Lexeme(i + 1, None, NoLiteral, None)
    case QuoteStart =>
      var q := SkipWhile(s, i + 1, NotQuotes);
      if q < |s| then Lexeme(q + 1, Some(String), StringLit(s[i + 1..q]), None)
      else Lexeme(|s|, None, NoLiteral, Some("Unterminated string"))
    case DigitStart =>
      var e := NumberEnd(s, i);
      Lexeme(e, Some(Number), NumberLit(NumberValue(s[i..e])), None)
    case AlphaStart =>
      var e := SkipWhile(s, i + 1, IdentChars);
      Lexeme(e, Some(IdentifierKind(s[i..e])), NoLiteral, None)
    case Unexpected => Lexeme(i + 1, None, NoLiteral, Some("Unexpected character"))
  }

  /** The token `addToken` appends for a lexeme from i, if the lexeme makes one. */
  function Emitted(s: string, i: nat, r: Lexeme, line: int): seq<Token>
    requires i <= r.end <= |s|
  {
    if r.kind.Some? then [Token(r.kind.value, s[i..r.end], r.literal, line)] else []
  }

  /** The error a lexeme reports, if any. */
  function Reported(r: Lexeme, line: int, where: int): seq<ScanError> {
    if r.error.Some? then [ScanError(line, r.error.value, where)] else []
  }

  /**
   * The tokens `scanTokens` adds for the source from index i to its end,
   * before EOF: each lexeme's token in order, on the line where it ends.
   */
  function ScannedTokens(s: string, i: nat): (r: seq<Token>)
    requires i <= |s|
    ensures forall k :: 0 <= k < |r| ==> r[k].kind != Eof && LineAt(s, i) <= r[k].line <= LineAt(s, |s|)
    ensures forall j, k :: 0 <= j <= k < |r| ==> r[j].line <= r[k].line
    decreases |s| - i
  {
    if i == |s| then []
    else
      var lex := NextLexeme(s, i);
      LineAtMonotone(s, i, lex.end);
      LineAtMonotone(s, lex.end, |s|);
      Emitted(s, i, lex, LineAt(s, lex.end)) + ScannedTokens(s, lex.end)
  }

  /**
   * The errors `scanTokens` reports for the source from index i on, each at
   * the line where its lexeme began and the column measured from
   * `lastNewline`, which only a newline lexeme moves.
   */
  function ScannedErrors(s: string, i: nat, lastNewline: nat): (r: seq<ScanError>)
    requires i <= |s|
    ensures forall k :: 0 <= k < |r| ==> LineAt(s, i) <= r[k].line <= LineAt(s, |s|)
    decreases |s| - i
  {
    if i == |s| then []
    else
      var lex := NextLexeme(s, i);
      LineAtMonotone(s, i, lex.end);
      LineAtMonotone(s, lex.end, |s|);
      Reported(lex, LineAt(s, i), i + 1 - lastNewline) +
      ScannedErrors(s, lex.end, if s[i] == '\n' then i + 1 else lastNewline)
  }

  /** Scanning one more lexeme moves its token from what remains to be scanned to what has been scanned. */
  lemma ScannedTokensStep(before: seq<Token>, after: seq<Token>, s: string, i: nat)
    requires i < |s|
    requires after == before + Emitted(s, i, NextLexeme(s, i), LineAt(s, NextLexeme(s, i).end))
    ensures before + ScannedTokens(s, i) == after + ScannedTokens(s, NextLexeme(s, i).end)
  {
  }

  /** Scanning one more lexeme moves its error from what remains to be scanned to what has been scanned. */
  lemma ScannedErrorsStep(before: seq<ScanError>, after: seq<ScanError>, s: string, i: nat, lastNewline: nat)
    requires i < |s|
    requires after == before + Reported(NextLexeme(s, i), LineAt(s, i), i + 1 - lastNewline)
    ensures before + ScannedErrors(s, i, lastNewline) ==
      after + ScannedErrors(s, NextLexeme(s, i).end, if s[i] == '\n' then i + 1 else lastNewline)
  {
  }

  /** The list `scanTokens` ends with: only its last token is EOF, and lines never decrease along it. */
  lemma ScanEnded(before: seq<Token>, s: string, i: nat)
    requires i <= |s|
    ensures var t := before + ScannedTokens(s, i) + [Token(Eof, "", NoLiteral, LineAt(s, |s|))];
      (forall k :: |before| <= k < |t| - 1 ==> t[k].kind != Eof) &&
      (forall j, k :: |before| <= j <= k < |t| ==> LineAt(s, i) <= t[j].line <= t[k].line <= LineAt(s, |s|))
  {
    LineAtMonotone(s, i, |s|);
    var t := before + ScannedTokens(s, i) + [Token(Eof, "", NoLiteral, LineAt(s, |s|))];
    forall k | |before| <= k < |t| - 1
      ensures t[k] == ScannedTokens(s, i)[k - |before|]
    {
    }
  }

  lemma {:induction false} LineAtMonotone(s: string, i: nat, j: nat)
    requires i <= j <= |s|
    ensures LineAt(s, i) <= LineAt(s, j)
    decreases j - i
  {
    if i < j {
      LineAtMonotone(s, i, j - 1);
    }
  }

  /** `!`, `=`, `<`, `>` take the two-character kind exactly when `=` follows, and consume it only then. */
  lemma OperatorLexeme(s: string, i: nat)
    requires i < |s| && IsOperator(s[i])
    ensures var r := NextLexeme(s, i); var withEqual := i + 1 < |s| && s[i + 1] == '=';
      r.kind.Some? && (r.kind.value in {BangEqual, EqualEqual, LessEqual, GreaterEqual} <==> withEqual) &&
      r.end == (if withEqual then i + 2 else i + 1)
  {
    assert !SingleKind(s[i]).Some?;
  }

  /** `//` adds no token and skips up to, not past, the next newline. */
  lemma CommentLexeme(s: string, i: nat)
    requires i + 1 < |s| && s[i] == '/' && s[i + 1] == '/'
    ensures var r := NextLexeme(s, i);
      r.kind.None? && r.error.None? && (r.end == |s| || s[r.end] == '\n') &&
      forall k :: i <= k < r.end ==> s[k] != '\n'
  {
    SkipWhileFirst(s, i + 2, NotNewlines);
  }

  /**
   * A string token's literal is the text strictly between its quotes and
   * holds no quote; without a closing quote there is no token, the error is
   * reported and the scan runs to the end.
   */
  lemma StringLexeme(s: string, i: nat)
    requires i < |s| && s[i] == '"'
    ensures var r := NextLexeme(s, i);
      if r.kind.Some? then
        r.kind.value == String && r.literal.StringLit? && s[i..r.end] == "\"" + r.literal.text + "\"" &&
        forall k :: 0 <= k < |r.literal.text| ==> r.literal.text[k] != '"'
      else
        r.end == |s| && r.error == Some("Unterminated string") && forall k :: i < k < |s| ==> s[k] != '"'
  {
    StringLexemeEnd(s, i);
    SkipWhileFirst(s, i + 1, NotQuotes);
    var q := SkipWhile(s, i + 1, NotQuotes);
    if q < |s| {
      var text := s[i + 1..q];
      assert |s[i..q + 1]| == |text| + 2;
      assert forall k :: 0 <= k < |text| ==> s[i..q + 1][k + 1] == text[k];
      assert s[i..q + 1] == "\"" + text + "\"";
    }
  }

  /** A number lexeme has the shape `\d+(\.\d+)?` and stops before any further digit. */
  lemma NumberLexeme(s: string, i: nat)
    requires i < |s| && IsDigit(s[i])
    ensures var r := NextLexeme(s, i);
      r.kind == Some(Number) && IsNumberText(s[i..r.end]) && r.literal == NumberLit(NumberValue(s[i..r.end])) &&
      (r.end == |s| || !IsDigit(s[r.end]))
  {
    NumberEndShape(s, i);
  }

  /** An identifier lexeme is a letter then letters, digits or underscores; a keyword gets its own kind. */
  lemma IdentifierLexeme(s: string, i: nat)
    requires i < |s| && IsAlpha(s[i])
    ensures var r := NextLexeme(s, i); var text := s[i..r.end];
      (forall k :: 0 <= k < |text| ==> IsIdentChar(text[k])) && (r.end == |s| || !IsIdentChar(s[r.end])) &&
      r.kind == Some(if text in Keywords then Keywords[text] else Identifier)
  {
    IdentLexemeEnd(s, i);
    SkipWhileFirst(s, i + 1, IdentChars);
  }

  class Scanner {
    const source: string
    var tokens: seq<Token>
    var start: nat
    var current: nat
    var line: int
    var lastNewline: nat
    var errors: seq<ScanError>

    /** `current` stays within the source; `start` marks the lexeme being scanned. */
    ghost predicate Valid()
      reads this`start, this`current, this`lastNewline
    {
      start <= current <= |source| && lastNewline <= current
    }

    /** `line` counts the newlines consumed so far. */
    ghost predicate LineCounted()
      reads this`current, this`line
      requires current <= |source|
    {
      line == LineAt(source, current)
    }

    constructor (source: string)
      ensures this.source == source && Valid() && LineCounted()
      ensures tokens == [] && errors == [] && start == 0 && current == 0 && line == 1 && lastNewline == 0
    {
      this.source := source;
      tokens, errors := [], [];
      start, current, line, lastNewline := 0, 0, 1, 0;
    }

    predicate IsAtEnd()
      reads this`current
    {
      current >= |source|
    }

    /** The next character, or NUL at the end. */
    function Peek(): char
      reads this`current
    {
      if IsAtEnd() then '\0' else source[current]
    }

    /** The character after the next, or NUL past the end. */
    function PeekNext(): char
      reads this`current
    {
      if current + 1 >= |source| then '\0' else source[current + 1]
    }

    method Advance() returns (c: char)
      requires Valid() && current < |source|
      modifies this`current
      ensures Valid() && c == source[old(current)] && current == old(current) + 1
    {
      c := source[current];
      current := current + 1;
    }

    /** `look_for`: consume the next character only when it is c. */
    method LookFor(c: char) returns (matched: bool)
      requires Valid()
      modifies this`current
      ensures Valid()
      ensures matched <==> old(current) < |source| && source[old(current)] == c
      ensures current == if matched then old(current) + 1 else old(current)
    {
      if IsAtEnd() {
        return false;
      }
      if source[current] != c {
        return false;
      }
      current := current + 1;
      matched := true;
    }

    /** `addToken`: the lexeme is `source[start:current]`, the line the current one. */
    method AddToken(kind: TokenKind, literal: Literal)
      requires Valid()
      modifies this`tokens
      ensures tokens == old(tokens) + [Token(kind, source[start..current], literal, line)]
    {
      tokens := tokens + [Token(kind, source[start..current], literal, line)];
    }

    /** The `//` comment: skip up to, not past, the next newline. */
    method SkipComment()
      requires Valid() && LineCounted()
      modifies this`current
      ensures Valid() && LineCounted()
      ensures current == SkipWhile(source, old(current), NotNewlines)
    {
      while !IsAtEnd() && Peek() != '\n'
        invariant Valid() && LineCounted() && old(current) <= current
        invariant SkipWhile(source, old(current), NotNewlines) == SkipWhile(source, current, NotNewlines)
        decreases |source| - current
      {
        var _ := Advance();
      }
    }

    /**
     * `string_lit`, entered just after the opening quote: newlines inside
     * the string advance `line`; the error of an unterminated string is
     * reported at the line and column where it began.
     */
    method ScanString()
      requires Valid() && LineCounted() && current == start + 1 <= |source| && Classify(source[start]).QuoteStart?
      modifies this`current, this`line, this`tokens, this`errors
      ensures Valid() && LineCounted()
      ensures var r := NextLexeme(source, start);
        current == r.end && tokens == old(tokens) + Emitted(source, start, r, line) &&
        errors == old(errors) + Reported(r, LineAt(source, start), old(current) - lastNewline)
    {
      StringLexemeEnd(source, start);
      ghost var r := NextLexeme(source, start);
      var startLine := line;
      var startPos := current - lastNewline;
      assert startLine == LineAt(source, start);
      SkipStringBody();
      if !IsAtEnd() {
        var _ := Advance();
        assert LineAt(source, current) == LineAt(source, current - 1);
        assert r.end == current && Reported(r, startLine, startPos) == [];
        AddToken(String, StringLit(source[start + 1..current - 1]));
      } else {
        assert r.end == current && Emitted(source, start, r, line) == [];
        errors := errors + [ScanError(startLine, "Unterminated string", startPos)];
      }
    }

    /** The body of a string literal: up to, not past, the next quote, counting the newlines passed. */
    method SkipStringBody()
      requires Valid() && LineCounted()
      modifies this`current, this`line
      ensures Valid() && LineCounted()
      ensures current == SkipWhile(source, old(current), NotQuotes)
      ensures current < |source| ==> source[current] == '"'
    {
      while !IsAtEnd() && Peek() != '"'
        invariant Valid() && LineCounted() && old(current) <= current
        invariant SkipWhile(source, old(current), NotQuotes) == SkipWhile(source, current, NotQuotes)
        decreases |source| - current
      {
        if Peek() == '\n' {
          line := line + 1;
        }
        var _ := Advance();
      }
    }

    /** The digit loops of `number_lit`. */
    method SkipDigits()
      requires Valid() && LineCounted()
      modifies this`current
      ensures Valid() && LineCounted()
      ensures current == SkipWhile(source, old(current), Digits)
    {
      while IsDigit(Peek())
        invariant Valid() && LineCounted() && old(current) <= current
        invariant SkipWhile(source, old(current), Digits) == SkipWhile(source, current, Digits)
        decreases |source| - current
      {
        var _ := Advance();
      }
    }

    /** `number_lit`, entered just after the first digit: a dot is taken only when a digit follows it. */
    method ScanNumber()
      requires Valid() && LineCounted() && current == start + 1 <= |source| && Classify(source[start]).DigitStart?
      modifies this`current, this`tokens
      ensures Valid() && LineCounted()
      ensures var r := NextLexeme(source, start);
        current == r.end && tokens == old(tokens) + Emitted(source, start, r, line)
    {
      SkipWhileFirst(source, start, Digits);
      assert SkipWhile(source, start, Digits) == SkipWhile(source, start + 1, Digits);
      SkipDigits();
      ghost var j := current;
      if Peek() == '.' && IsDigit(PeekNext()) {
        var _ := Advance();
      } else {
        assert SkipWhile(source, current, Digits) == current;
      }
      SkipDigits();
      assert current == NumberEnd(source, start) by {
        assert j == SkipWhile(source, start, Digits);
      }
      NumberLexemeEnd(source, start);
      AddToken(Number, NumberLit(NumberValue(source[start..current])));
    }

    /** `identifier`, entered just after the first letter: keywords get their own kind. */
    method ScanIdentifier()
      requires Valid() && LineCounted() && current == start + 1 <= |source| && Classify(source[start]).AlphaStart?
      modifies this`current, this`tokens
      ensures Valid() && LineCounted()
      ensures var r := NextLexeme(source, start);
        current == r.end && tokens == old(tokens) + Emitted(source, start, r, line)
    {
      SkipIdentChars();
      IdentLexemeEnd(source, start);
      AddToken(IdentifierKind(source[start..current]), NoLiteral);
    }

    /** The loop of `identifier`: letters, digits and underscores. */
    method SkipIdentChars()
      requires Valid() && LineCounted()
      modifies this`current
      ensures Valid() && LineCounted()
      ensures current == SkipWhile(source, old(current), IdentChars)
    {
      while IsIdentChar(Peek())
        invariant Valid() && LineCounted() && old(current) <= current
        invariant SkipWhile(source, old(current), IdentChars) == SkipWhile(source, current, IdentChars)
        decreases |source| - current
      {
        var _ := Advance();
      }
    }

    /**
     * `scanToken`: the lexeme at `start` is NextLexeme's; its token, if it
     * makes one, carries the line at its end, and its error the line and
     * column where it began. A newline lexeme moves `lastNewline`.
     */
    method ScanToken()
      requires Valid() && LineCounted() && start == current < |source|
      modifies this`current, this`line, this`lastNewline, this`tokens, this`errors
      ensures Valid() && LineCounted() && start == old(start)
      ensures var r := NextLexeme(source, start);
        current == r.end &&
        tokens == old(tokens) + Emitted(source, start, r, line) &&
        errors == old(errors) + Reported(r, LineAt(source, start), start + 1 - old(lastNewline)) &&
        lastNewline == if source[start] == '\n' then start + 1 else old(lastNewline)
    {
      var c := Advance();
      match Classify(c)
      case NewlineStart =>
        lastNewline := current;
        line := line + 1;
      case Blank =>
      case QuoteStart =>
        ScanString();
      case DigitStart =>
        ScanNumber();
      case AlphaStart =>
        ScanIdentifier();
      case Unexpected =>
        errors := errors + [ScanError(line, "Unexpected character", current - lastNewline)];
      case _ =>
        ScanPunctuation(c);
    }

    /** The punctuation branches of `scanToken`: one-character tokens, operators that may take `=`, and `/` or a `//` comment. */
    method ScanPunctuation(c: char)
      requires Valid() && LineCounted() && current == start + 1 <= |source| && c == source[start]
      requires Classify(c).OneChar? || Classify(c).Operator? || Classify(c).SlashStart?
      modifies this`current, this`tokens
      ensures Valid() && LineCounted()
      ensures var r := NextLexeme(source, start);
        current == r.end && tokens == old(tokens) + Emitted(source, start, r, line) && r.error.None?
    {
      match Classify(c)
      case OneChar(k) =>
        assert source[start..current] == [c];
        AddToken(k, NoLiteral);
      case Operator =>
        ScanOperator(c);
      case SlashStart =>
        ScanSlash();
    }

    /** `!`, `=`, `<` or `>`, taking a following `=` when there is one: the operator NextLexeme finds. */
    method ScanOperator(c: char)
      requires Valid() && LineCounted() && current == start + 1 <= |source| && c == source[start]
      requires Classify(c).Operator?
      modifies this`current, this`tokens
      ensures Valid() && LineCounted()
      ensures var r := NextLexeme(source, start);
        current == r.end && tokens == old(tokens) + Emitted(source, start, r, line) && r.error.None?
    {
      var withEqual := LookFor('=');
      AddToken(OperatorKind(c, withEqual), NoLiteral);
    }

    /** `/`: a slash token, or a `//` comment skipped to the end of the line without a token. */
    method ScanSlash()
      requires Valid() && LineCounted() && current == start + 1 <= |source| && source[start] == '/'
      modifies this`current, this`tokens
      ensures Valid() && LineCounted()
      ensures var r := NextLexeme(source, start);
        current == r.end && tokens == old(tokens) + Emitted(source, start, r, line) && r.error.None?
    {
      var comment := LookFor('/');
      if !comment {
        assert source[start..current] == "/";
        AddToken(Slash, NoLiteral);
      } else {
        SkipComment();
      }
    }

    /**
     * One turn of the loop of `scanTokens`: mark the start of the lexeme and
     * scan it. What is still to be scanned shrinks by exactly that lexeme's
     * token and error.
     */
    method ScanNext()
      requires Valid() && LineCounted() && current < |source|
      modifies this`start, this`current, this`line, this`lastNewline, this`tokens, this`errors
      ensures Valid() && LineCounted() && old(current) < current
      ensures old(tokens) + ScannedTokens(source, old(current)) == tokens + ScannedTokens(source, current)
      ensures old(errors) + ScannedErrors(source, old(current), old(lastNewline)) == errors + ScannedErrors(source, current, lastNewline)
    {
      start := current;
      ScanToken();
      ScannedTokensStep(old(tokens), tokens, source, start);
      ScannedErrorsStep(old(errors), errors, source, start, old(lastNewline));
    }

    /**
     * `scanTokens`: scan lexemes to the end of the source, then append one
     * EOF token carrying the final line number. The tokens added are exactly
     * those of the lexemes of the source from `current` on, in order, and so
     * are the errors; earlier tokens and errors are kept.
     */
    method ScanTokens() returns (r: seq<Token>)
      requires Valid() && LineCounted()
      modifies this`start, this`current, this`line, this`lastNewline, this`tokens, this`errors
      ensures Valid() && current == |source| && r == tokens
      ensures tokens == old(tokens) + ScannedTokens(source, old(current)) + [Token(Eof, "", NoLiteral, LineAt(source, |source|))]
      ensures errors == old(errors) + ScannedErrors(source, old(current), old(lastNewline))
      ensures forall k :: |old(tokens)| <= k < |tokens| - 1 ==> tokens[k].kind != Eof
      ensures forall j, k :: |old(tokens)| <= j <= k < |tokens| ==> old(line) <= tokens[j].line <= tokens[k].line <= line
    {
      while !IsAtEnd()
        invariant Valid() && LineCounted()
        invariant old(tokens) + ScannedTokens(source, old(current)) == tokens + ScannedTokens(source, current)
        invariant old(errors) + ScannedErrors(source, old(current), old(lastNewline)) == errors + ScannedErrors(source, current, lastNewline)
        decreases |source| - current
      {
        ScanNext();
      }
      tokens := tokens + [Token(Eof, "", NoLiteral, line)];
      r := tokens;
      ScanEnded(old(tokens), source, old(current));
    }
  }
}
