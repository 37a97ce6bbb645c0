/**
 * The scanner (src/main/java/Scanner.java). The pure functions below say,
 * position by position, what one call of `scanToken` consumes, emits and
 * reports (`ScanStep`) and what the whole pass produces (`ScanFrom`); the
 * class `Scanner` keeps the Java object's cursors and is proved against them.
 */
module Scanning {
  import opened Values
  import opened Tokens
  import opened Reports

  predicate IsDigit(c: char) {
    '0' <= c <= '9'
  }

  predicate IsAlpha(c: char) {
    ('a' <= c <= 'z') || ('A' <= c <= 'Z') || c == '_'
  }

  predicate IsAlphaNumeric(c: char) {
    IsAlpha(c) || IsDigit(c)
  }

  /** The number of line breaks in src[i..j]. */
  function LineBreaks(src: string, i: nat, j: nat): nat
    requires i <= j <= |src|
    decreases j - i
  {
    if i == j then 0 else LineBreaks(src, i, j - 1) + (if src[j - 1] == '\n' then 1 else 0)
  }

  lemma {:induction false} LineBreaksSplit(src: string, a: nat, b: nat, c: nat)
    requires a <= b <= c <= |src|
    ensures LineBreaks(src, a, c) == LineBreaks(src, a, b) + LineBreaks(src, b, c)
    decreases c - b
  {
    if b < c {
      LineBreaksSplit(src, a, b, c - 1);
    }
  }

  lemma {:induction false} NoLineBreaks(src: string, i: nat, j: nat)
    requires i <= j <= |src|
    requires forall k :: i <= k < j ==> src[k] != '\n'
    ensures LineBreaks(src, i, j) == 0
    decreases j - i
  {
    if i < j {
      NoLineBreaks(src, i, j - 1);
    }
  }

  lemma AppendAssociative<T>(a: seq<T>, b: seq<T>, c: seq<T>)
    ensures (a + b) + c == a + (b + c)
  {
  }

  /** Java's `peek()` at cursor `i`: the character there, or '\0' at the end. */
  function PeekAt(src: string, i: nat): char {
    if i >= |src| then '\0' else src[i]
  }

  /** Java's `peekNext()` at cursor `i`. */
  function PeekNextAt(src: string, i: nat): char {
    if i + 1 >= |src| then '\0' else src[i + 1]
  }

  /** Whether Java's `match(expected)` succeeds at cursor `i`. */
  predicate Matches(src: string, i: nat, expected: char) {
    i < |src| && src[i] == expected
  }

  /** Where a line comment whose body starts at `i` stops: before the next line break, or at the end. */
  function CommentEnd(src: string, i: nat): (r: nat)
    requires i <= |src|
    ensures i <= r <= |src|
    ensures r == |src| || src[r] == '\n'
    ensures forall k :: i <= k < r ==> src[k] != '\n'
    decreases |src| - i
  {
    if PeekAt(src, i) != '\n' && i < |src| then CommentEnd(src, i + 1) else i
  }

  /** Where the body of a string literal starting at `i` stops: at the next '"', or at the end. */
  function StringEnd(src: string, i: nat): (r: nat)
    requires i <= |src|
    ensures i <= r <= |src|
    ensures r == |src| || src[r] == '"'
    ensures forall k :: i <= k < r ==> src[k] != '"'
    decreases |src| - i
  {
    if PeekAt(src, i) != '"' && i < |src| then StringEnd(src, i + 1) else i
  }

  /** The end of the run of digits starting at `i`. */
  function DigitsEnd(src: string, i: nat): (r: nat)
    requires i <= |src|
    ensures i <= r <= |src|
    ensures forall k :: i <= k < r ==> IsDigit(src[k])
    ensures !IsDigit(PeekAt(src, r))
    decreases |src| - i
  {
    if IsDigit(PeekAt(src, i)) then DigitsEnd(src, i + 1) else i
  }

  /** The end of a number whose first digit precedes `i`: more digits, then optionally '.' and at least one digit. */
  function NumberEnd(src: string, i: nat): (r: nat)
    requires i <= |src|
    ensures i <= r <= |src|
    ensures forall k :: i <= k < r ==> IsDigit(src[k]) || src[k] == '.'
  {
    var j := DigitsEnd(src, i);
    if PeekAt(src, j) == '.' && IsDigit(PeekNextAt(src, j)) then DigitsEnd(src, j + 1) else j
  }

  /** The end of the run of letters, digits and underscores starting at `i`. */
  function IdentifierEnd(src: string, i: nat): (r: nat)
    requires i <= |src|
    ensures i <= r <= |src|
    ensures forall k :: i <= k < r ==> IsAlphaNumeric(src[k])
    ensures !IsAlphaNumeric(PeekAt(src, r))
    decreases |src| - i
  {
    if IsAlphaNumeric(PeekAt(src, i)) then IdentifierEnd(src, i + 1) else i
  }

  /** The kind `identifier()` gives a word: its keyword kind, else IDENTIFIER. */
  function WordKind(text: string): (r: TokenType)
    ensures text in Keywords ==> r == Keywords[text]
    ensures r == IDENTIFIER <==> text !in Keywords
  {
    if text in Keywords then Keywords[text] else IDENTIFIER
  }

  function DigitValue(c: char): nat {
    if IsDigit(c) then c as int - '0' as int else 0
  }

  /** The value of a run of decimal digits. */
  function DigitsValue(s: string): nat {
    if s == [] then 0 else 10 * DigitsValue(s[..|s| - 1]) + DigitValue(s[|s| - 1])
  }

  /** A run of `n` digits is worth less than 10^n. */
  lemma {:induction false} DigitsBelowPow10(s: string)
    ensures DigitsValue(s) < Pow10(|s|)
  {
    if s != [] {
      DigitsBelowPow10(s[..|s| - 1]);
      assert DigitValue(s[|s| - 1]) <= 9;
    }
  }

  function Pow10(n: nat): (r: nat)
    ensures r > 0
  {
    if n == 0 then 1 else 10 * Pow10(n - 1)
  }

  /** The index of the first '.' in `s` at or after `i`, or |s|. */
  function DotIndex(s: string, i: nat): (r: nat)
    requires i <= |s|
    ensures i <= r <= |s|
    ensures forall k :: i <= k < r ==> s[k] != '.'
    ensures r < |s| ==> s[r] == '.'
    decreases |s| - i
  {
    if i == |s| || s[i] == '.' then i else DotIndex(s, i + 1)
  }

  /**
   * `Double.parseDouble` on a number lexeme, taken as the exact decimal
   * value (rounding to the nearest double is not modelled).
   */
  /** A digit run over a larger power of ten is a fraction in [0, 1). */
  lemma FractionBelowOne(f: nat, p: nat)
    requires f < p
    ensures 0.0 <= f as real / p as real < 1.0
  {
    var q := f as real / p as real;
    assert q * p as real == f as real;
  }

  function DecimalValue(s: string): (r: real)
    ensures DotIndex(s, 0) == |s| ==> r == DigitsValue(s) as real
    ensures DigitsValue(s[..DotIndex(s, 0)]) as real <= r < DigitsValue(s[..DotIndex(s, 0)]) as real + 1.0
  {
    var d := DotIndex(s, 0);
    assert d == |s| ==> s[..d] == s;
    if d < |s| then
      DigitsBelowPow10(s[d + 1..]);
      FractionBelowOne(DigitsValue(s[d + 1..]), Pow10(|s| - d - 1));
      DigitsValue(s[..d]) as real + DigitsValue(s[d + 1..]) as real / Pow10(|s| - d - 1) as real
    else
      DigitsValue(s[..d]) as real
  }

  /**
   * What one call of `scanToken` does from cursor `start`: the cursor and
   * line it leaves, the tokens it adds and the errors it reports.
   */
  datatype Step = Step(next: nat, line: int, emitted: seq<Token>, reported: seq<Report>)

  /**
   * What every step satisfies: it consumes at least one character, the line
   * grows by the line breaks consumed, it adds at most one token or one
   * error, a token's lexeme is exactly the consumed text, and tokens and
   * errors carry the line reached.
   */
  ghost predicate StepFacts(src: string, start: nat, line: int, r: Step)
    requires start < |src|
  {
    && start < r.next <= |src|
    && r.line == line + LineBreaks(src, start, r.next)
    && |r.emitted| + |r.reported| <= 1
    && (r.emitted != [] ==> r.emitted[0].kind != EOF && r.emitted[0].lexeme == src[start..r.next] && r.emitted[0].line == r.line)
    && (r.reported != [] ==> r.reported[0].location == "" && r.reported[0].line == r.line && LexicalMessage(r.reported[0].message))
  }

  /** The two messages the scanner reports. */
  predicate LexicalMessage(m: string) {
    m == "Unexpected character." || m == "Unterminated string."
  }

  /** `addToken(kind)` after consuming src[start..next], which holds no line break. */
  function Emit(src: string, start: nat, next: nat, line: int, kind: TokenType): (r: Step)
    requires start < next <= |src| && kind != EOF
    requires forall k :: start <= k < next ==> src[k] != '\n'
    ensures r.next == next && LineBreaks(src, start, next) == 0
  {
    NoLineBreaks(src, start, next);
    Step(next, line, [Token(kind, src[start..next], Nil, line)], [])
  }

  /** Consuming src[start..next], which holds no line break, without a token. */
  function Skip(src: string, start: nat, next: nat, line: int): (r: Step)
    requires start < next <= |src|
    requires forall k :: start <= k < next ==> src[k] != '\n'
    ensures r.next == next && LineBreaks(src, start, next) == 0
  {
    NoLineBreaks(src, start, next);
    Step(next, line, [], [])
  }

  /** A line break: consumed, and the line advances. */
  function NewlineStep(src: string, start: nat, line: int): (r: Step)
    requires start < |src| && src[start] == '\n'
    ensures StepFacts(src, start, line, r)
  {
    Step(start + 1, line + 1, [], [])
  }

  /** Any other character: reported and skipped. */
  function UnexpectedStep(src: string, start: nat, line: int): (r: Step)
    requires start < |src| && src[start] != '\n'
    ensures StepFacts(src, start, line, r)
  {
    NoLineBreaks(src, start, start + 1);
    Step(start + 1, line, [], [ErrorOnLine(line, "Unexpected character.")])
  }

  /** `c` alone, or `c` followed by '=' (`!`, `=`, `<`, `>`). */
  function OperatorStep(src: string, start: nat, line: int, single: TokenType, double: TokenType): (r: Step)
    requires start < |src| && src[start] != '\n' && single != EOF && double != EOF
    ensures StepFacts(src, start, line, r)
  {
    if Matches(src, start + 1, '=') then Emit(src, start, start + 2, line, double)
    else Emit(src, start, start + 1, line, single)
  }

  /** `string()`: the literal runs to the next '"'; lines inside it are counted. */
  function StringStep(src: string, start: nat, line: int): (r: Step)
    requires start < |src| && src[start] == '"'
    ensures StepFacts(src, start, line, r)
  {
    var e := StringEnd(src, start + 1);
    var l := line + LineBreaks(src, start + 1, e);
    LineBreaksSplit(src, start, start + 1, e);
    NoLineBreaks(src, start, start + 1);
    if e == |src| then
      Step(e, l, [], [ErrorOnLine(l, "Unterminated string.")])
    else
      LineBreaksSplit(src, start, e, e + 1);
      NoLineBreaks(src, e, e + 1);
      Step(e + 1, l, [Token(STRING, src[start..e + 1], Str(src[start + 1..e]), l)], [])
  }

  /** The step of a string literal that has its closing quote. */
  lemma ClosedString(src: string, start: nat, line: int)
    requires start < |src| && src[start] == '"' && StringEnd(src, start + 1) < |src|
    ensures var e := StringEnd(src, start + 1);
            var r := StringStep(src, start, line);
      && r.next == e + 1 && r.line == line + LineBreaks(src, start + 1, e) && r.reported == []
      && r.emitted == [Token(STRING, src[start..e + 1], Str(src[start + 1..e]), r.line)]
  {
  }

  /** The step of a string literal that runs to the end of the source: one error, no token. */
  lemma UnterminatedString(src: string, start: nat, line: int)
    requires start < |src| && src[start] == '"' && StringEnd(src, start + 1) == |src|
    ensures var r := StringStep(src, start, line);
      && r.next == |src| && r.line == line + LineBreaks(src, start + 1, |src|) && r.emitted == []
      && r.reported == [ErrorOnLine(r.line, "Unterminated string.")]
  {
  }

  /** `number()`: the lexeme and its decimal value. */
  function NumberStep(src: string, start: nat, line: int): (r: Step)
    requires start < |src| && IsDigit(src[start])
    ensures StepFacts(src, start, line, r)
  {
    var e := NumberEnd(src, start + 1);
    var text := src[start..e];
    NoLineBreaks(src, start, e);
    Step(e, line, [Token(NUMBER, text, Num(DecimalValue(text)), line)], [])
  }

  /** `identifier()`: the longest word, with its keyword kind if it has one. */
  function IdentifierStep(src: string, start: nat, line: int): (r: Step)
    requires start < |src| && IsAlpha(src[start])
    ensures StepFacts(src, start, line, r)
  {
    var e := IdentifierEnd(src, start + 1);
    Emit(src, start, e, line, WordKind(src[start..e]))
  }

  /** The arms of the `switch` in `scanToken`, by the character that selects them. */
  datatype CharClass =
    | Single(kind: TokenType)
    | Operator(single: TokenType, double: TokenType)
    | Slash
    | Blank
    | LineBreak
    | Quote
    | LetterO
    | Other

  function Classify(c: char): CharClass {
    match c
    case '(' => Single(LEFT_PAREN)
    case ')' => Single(RIGHT_PAREN)
    case '{' => Single(LEFT_BRACE)
    case '}' => Single(RIGHT_BRACE)
    case ',' => Single(COMMA)
    case '.' => Single(DOT)
    case '-' => Single(MINUS)
    case '+' => Single(PLUS)
    case ';' => Single(SEMICOLON)
    case '*' => Single(STAR)
    case '!' => Operator(BANG, BANG_EQUAL)
    case '=' => Operator(EQUAL, EQUAL_EQUAL)
    case '<' => Operator(LESS, LESS_EQUAL)
    case '>' => Operator(GREATER, GREATER_EQUAL)
    case '/' => Slash
    case ' ' => Blank
    case '\r' => Blank
    case '\t' => Blank
    case '\n' => LineBreak
    case '"' => Quote
    case 'o' => LetterO
    case _ => Other
  }

  /** `scanToken()` with the cursor at `start`. */
  function ScanStep(src: string, start: nat, line: int): (r: Step)
    requires start < |src|
    ensures StepFacts(src, start, line, r)
  {
    var c := src[start];
    match Classify(c)
    case Single(kind) => Emit(src, start, start + 1, line, kind)
    case Operator(single, double) => OperatorStep(src, start, line, single, double)
    case Slash =>
      if Matches(src, start + 1, '/') then Skip(src, start, CommentEnd(src, start + 2), line)
      else Emit(src, start, start + 1, line, SLASH)
    case Blank => Skip(src, start, start + 1, line)
    case LineBreak => NewlineStep(src, start, line)
    case Quote => StringStep(src, start, line)
    case LetterO =>
      if Matches(src, start + 1, 'r') then Emit(src, start, start + 2, line, OR)
      else Skip(src, start, start + 1, line)
    case Other =>
      if IsDigit(c) then NumberStep(src, start, line)
      else if IsAlpha(c) then IdentifierStep(src, start, line)
      else UnexpectedStep(src, start, line)
  }

  /** The tokens and errors of one pass. */
  datatype Scanned = Scanned(tokens: seq<Token>, errors: seq<Report>)

  /**
   * `scanTokens` from cursor `pos` at line `line`: one step per call of
   * `scanToken` until the end, then the EOF token, which carries the final
   * line and is the only EOF in the list.
   */
  function ScanFrom(src: string, pos: nat, line: int): (r: Scanned)
    requires pos <= |src|
    ensures |r.tokens| > 0
    ensures r.tokens[|r.tokens| - 1] == Token(EOF, "", Nil, line + LineBreaks(src, pos, |src|))
    ensures forall i :: 0 <= i < |r.tokens| - 1 ==> r.tokens[i].kind != EOF
    decreases |src| - pos
  {
    if pos == |src| then
      Scanned([Token(EOF, "", Nil, line)], [])
    else
      var st := ScanStep(src, pos, line);
      var rest := ScanFrom(src, st.next, st.line);
      LineBreaksSplit(src, pos, st.next, |src|);
      Scanned(st.emitted + rest.tokens, st.reported + rest.errors)
  }

  /** The result of `new Scanner(src).scanTokens()`. */
  function Scan(src: string): (r: Scanned)
    ensures |r.tokens| > 0
    ensures r.tokens[|r.tokens| - 1] == Token(EOF, "", Nil, 1 + LineBreaks(src, 0, |src|))
    ensures forall i :: 0 <= i < |r.tokens| - 1 ==> r.tokens[i].kind != EOF
  {
    ScanFrom(src, 0, 1)
  }

  /**
   * The Java `Scanner` object: the source, the token list it appends to, the
   * errors it reports, and its `start`, `current` and `line` cursors.
   */
  class Scanner {
    const source: string
    var tokens: seq<Token>
    var errors: seq<Report>
    var start: nat
    var current: nat
    var line: int

    ghost predicate Valid()
      reads this
    {
      start <= current <= |source|
    }

    constructor (source: string)
      ensures Valid() && this.source == source
      ensures tokens == [] && errors == [] && start == 0 && current == 0 && line == 1
    {
      this.source := source;
      tokens, errors := [], [];
      start, current, line := 0, 0, 1;
    }

    /** `scanTokens`: scans to the end, then appends the EOF token. */
    method ScanTokens() returns (r: seq<Token>)
      requires Valid()
      modifies this
      ensures Valid() && current == |source|
      ensures r == tokens == old(tokens) + ScanFrom(source, old(current), old(line)).tokens
      ensures errors == old(errors) + ScanFrom(source, old(current), old(line)).errors
    {
      while !IsAtEnd()
        invariant Valid()
        invariant tokens + ScanFrom(source, current, line).tokens
               == old(tokens) + ScanFrom(source, old(current), old(line)).tokens
        invariant errors + ScanFrom(source, current, line).errors
               == old(errors) + ScanFrom(source, old(current), old(line)).errors
        decreases |source| - current
      {
        start := current;
        ghost var st := ScanStep(source, current, line);
        ghost var rest := ScanFrom(source, st.next, st.line);
        ghost var (tokensBefore, errorsBefore) := (tokens, errors);
        assert ScanFrom(source, current, line) == Scanned(st.emitted + rest.tokens, st.reported + rest.errors);
        ScanToken();
        AppendAssociative(tokensBefore, st.emitted, rest.tokens);
        AppendAssociative(errorsBefore, st.reported, rest.errors);
      }
      tokens := tokens + [Token(EOF, "", Nil, line)];
      r := tokens;
    }

    /** `scanToken`: one step of the pass, as `ScanStep` describes it. */
    method ScanToken()
      requires Valid() && start == current < |source|
      modifies this`current, this`line, this`tokens, this`errors
      ensures Valid()
      ensures var st := ScanStep(source, old(current), old(line));
        && current == st.next && line == st.line
        && tokens == old(tokens) + st.emitted && errors == old(errors) + st.reported
    {
      var c := Advance();
      match Classify(c) {
        case Single(kind) => ScanSingle(kind);
        case Operator(single, double) => ScanOperator(single, double);
        case Slash => ScanSlash();
        case Blank => ScanBlank();
        case LineBreak => ScanLineBreak();
        case Quote =>
          assert ScanStep(source, start, line) == StringStep(source, start, line);
          ScanString();
        case LetterO => ScanLetterO();
        case Other => ScanOther(c);
      }
    }

    /** The cursors, token list and error list once the step from `start` has been taken. */
    ghost predicate StepTaken(line0: int, tokens0: seq<Token>, errors0: seq<Report>)
      reads this
      requires start < |source|
    {
      var st := ScanStep(source, start, line0);
      && current == st.next && line == st.line
      && tokens == tokens0 + st.emitted && errors == errors0 + st.reported
    }

    /** The single-character arms of the `switch`. */
    method ScanSingle(kind: TokenType)
      requires Valid() && start < |source| && current == start + 1
      requires Classify(source[start]) == Single(kind)
      modifies this`tokens
      ensures Valid() && StepTaken(old(line), old(tokens), old(errors))
    {
      AddToken(kind);
    }

    /** `!`, `=`, `<`, `>`, each possibly followed by '='. */
    method ScanOperator(single: TokenType, double: TokenType)
      requires Valid() && start < |source| && current == start + 1
      requires Classify(source[start]) == Operator(single, double)
      modifies this`current, this`tokens
      ensures Valid() && StepTaken(old(line), old(tokens), old(errors))
    {
      var m := Match('=');
      AddToken(if m then double else single);
    }

    /** '/': a line comment, or the SLASH token. */
    method ScanSlash()
      requires Valid() && start < |source| && current == start + 1
      requires Classify(source[start]) == Slash
      modifies this`current, this`tokens
      ensures Valid() && StepTaken(old(line), old(tokens), old(errors))
    {
      var m := Match('/');
      if m {
        SkipComment();
      } else {
        AddToken(SLASH);
      }
    }

    /** ' ', '\r' and '\t' are skipped. */
    method ScanBlank()
      requires Valid() && start < |source| && current == start + 1
      requires Classify(source[start]) == Blank
      ensures StepTaken(line, tokens, errors)
    {
    }

    /** '\n' advances the line. */
    method ScanLineBreak()
      requires Valid() && start < |source| && current == start + 1
      requires Classify(source[start]) == LineBreak
      modifies this`line
      ensures StepTaken(old(line), tokens, errors)
    {
      line := line + 1;
    }

    /** 'o': the OR keyword when 'r' follows, else nothing. */
    method ScanLetterO()
      requires Valid() && start < |source| && current == start + 1
      requires Classify(source[start]) == LetterO
      modifies this`current, this`tokens
      ensures Valid() && StepTaken(old(line), old(tokens), old(errors))
    {
      var m := Match('r');
      if m {
        AddToken(OR);
      }
    }

    /** The `default` arm: a number, a word, or an unexpected character. */
    method ScanOther(c: char)
      requires Valid() && start < |source| && current == start + 1
      requires c == source[start] && Classify(c) == Other
      modifies this`current, this`tokens, this`errors
      ensures Valid() && StepTaken(old(line), old(tokens), old(errors))
    {
      if IsDigit(c) {
        ScanNumber();
      } else if IsAlpha(c) {
        ScanIdentifier();
      } else {
        errors := errors + [ErrorOnLine(line, "Unexpected character.")];
      }
    }

    /** The comment loop of `scanToken`: everything up to the next line break. */
    method SkipComment()
      requires Valid() && current <= |source|
      modifies this`current
      ensures Valid() && current == CommentEnd(source, old(current))
    {
      ghost var end := CommentEnd(source, current);
      while PeekAt(source, current) != '\n' && !IsAtEnd()
        invariant old(current) <= current <= end
        decreases |source| - current
      {
        var _ := Advance();
      }
    }

    predicate IsAtEnd()
      reads this
    {
      current >= |source|
    }

    method Advance() returns (c: char)
      requires Valid() && current < |source|
      modifies this`current
      ensures Valid() && current == old(current) + 1 && c == source[old(current)]
    {
      c := source[current];
      current := current + 1;
    }

    /** `addToken(kind)`: a token without a literal. */
    method AddToken(kind: TokenType)
      requires Valid()
      modifies this`tokens
      ensures tokens == old(tokens) + [Token(kind, source[start..current], Nil, line)]
    {
      AddLiteralToken(kind, Nil);
    }

    /** `addToken(kind, literal)`: the lexeme is the text from `start` to `current`. */
    method AddLiteralToken(kind: TokenType, literal: Value)
      requires Valid()
      modifies this`tokens
      ensures tokens == old(tokens) + [Token(kind, source[start..current], literal, line)]
    {
      var text := source[start..current];
      tokens := tokens + [Token(kind, text, literal, line)];
    }

    /** `match(expected)`: consumes the current character only if it is `expected`. */
    method Match(expected: char) returns (b: bool)
      requires Valid()
      modifies this`current
      ensures Valid()
      ensures b == Matches(source, old(current), expected)
      ensures current == old(current) + (if b then 1 else 0)
    {
      if IsAtEnd() {
        return false;
      }
      if source[current] != expected {
        return false;
      }
      current := current + 1;
      return true;
    }

    /** `string()`, entered just after the opening quote. */
    method ScanString()
      requires Valid() && start < |source| && current == start + 1 && source[start] == '"'
      modifies this`current, this`line, this`tokens, this`errors
      ensures Valid()
      ensures var st := StringStep(source, start, old(line));
        && current == st.next && line == st.line
        && tokens == old(tokens) + st.emitted && errors == old(errors) + st.reported
    {
      ConsumeStringBody();
      ghost var st := StringStep(source, start, old(line));
      if IsAtEnd() {
        UnterminatedString(source, start, old(line));
        errors := errors + [ErrorOnLine(line, "Unterminated string.")];
        return;
      }
      ClosedString(source, start, old(line));
      CloseString();
    }

    /** The end of `string()`: the closing quote is consumed and the literal is its contents. */
    method CloseString()
      requires Valid() && start < current < |source| && source[current] == '"'
      modifies this`current, this`tokens
      ensures Valid() && current == old(current) + 1
      ensures tokens == old(tokens) + [Token(STRING, source[start..current], Str(source[start + 1..old(current)]), line)]
    {
      var _ := Advance();
      var value := source[start + 1..current - 1];
      AddLiteralToken(STRING, Str(value));
    }

    /** The loop of `string()`: up to the closing quote, counting line breaks. */
    method ConsumeStringBody()
      requires Valid() && start < |source| && current == start + 1
      modifies this`current, this`line
      ensures Valid() && current == StringEnd(source, start + 1)
      ensures line == old(line) + LineBreaks(source, start + 1, current)
    {
      ghost var end := StringEnd(source, start + 1);
      while PeekAt(source, current) != '"' && !IsAtEnd()
        invariant start + 1 <= current <= end
        invariant line == old(line) + LineBreaks(source, start + 1, current)
        decreases |source| - current
      {
        if PeekAt(source, current) == '\n' {
          line := line + 1;
        }
        var _ := Advance();
      }
    }

    /** `number()`, entered just after the first digit. */
    method ScanNumber()
      requires Valid() && start < |source| && current == start + 1 && IsDigit(source[start])
      modifies this`current, this`tokens
      ensures Valid()
      ensures var st := NumberStep(source, start, line);
        current == st.next && tokens == old(tokens) + st.emitted
    {
      ghost var st := NumberStep(source, start, line);
      ConsumeDigits();
      if PeekAt(source, current) == '.' && IsDigit(PeekNextAt(source, current)) {
        var _ := Advance();
        ConsumeDigits();
      }
      assert current == st.next;
      AddLiteralToken(NUMBER, Num(DecimalValue(source[start..current])));
    }

    /** The `while (isDigit(peek())) advance();` loops of `number()`. */
    method ConsumeDigits()
      requires Valid()
      modifies this`current
      ensures Valid() && current == DigitsEnd(source, old(current))
    {
      ghost var end := DigitsEnd(source, current);
      while IsDigit(PeekAt(source, current))
        invariant old(current) <= current <= end
        decreases |source| - current
      {
        var _ := Advance();
      }
    }

    /** `identifier()`, entered just after the first letter. */
    method ScanIdentifier()
      requires Valid() && start < |source| && current == start + 1 && IsAlpha(source[start])
      modifies this`current, this`tokens
      ensures Valid()
      ensures var st := IdentifierStep(source, start, line);
        current == st.next && tokens == old(tokens) + st.emitted
    {
      ghost var end := IdentifierEnd(source, start + 1);
      while IsAlphaNumeric(PeekAt(source, current))
        invariant start + 1 <= current <= end
        invariant tokens == old(tokens)
        decreases |source| - current
      {
        var _ := Advance();
      }
      var text := source[start..current];
      var kind := if text in Keywords then Keywords[text] else IDENTIFIER;
      AddToken(kind);
    }
  }
}
