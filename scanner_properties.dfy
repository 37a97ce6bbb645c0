/**
 * What the scanner's output says about the source: where the lexemes come
 * from, which lines tokens carry, what each kind of character produces, and
 * the errors it reports without stopping.
 */
module ScanningProperties {
  import opened Values
  import opened Tokens
  import opened Reports
  import opened Scanning

  /** The source range a token was scanned from. */
  datatype Span = Span(lo: nat, hi: nat)

  /**
   * The source range of every token of `ScanFrom(src, pos, line)` but the
   * final EOF: the ranges are non-empty, lie in src[pos..] and are disjoint
   * and in source order.
   */
  ghost function TokenSpans(src: string, pos: nat, line: int): (r: seq<Span>)
    requires pos <= |src|
    ensures forall i :: 0 <= i < |r| ==> pos <= r[i].lo < r[i].hi <= |src|
    ensures forall i, j :: 0 <= i < j < |r| ==> r[i].hi <= r[j].lo
    decreases |src| - pos
  {
    if pos == |src| then []
    else
      var st := ScanStep(src, pos, line);
      var rest := TokenSpans(src, st.next, st.line);
      if st.emitted == [] then rest else [Span(pos, st.next)] + rest
  }

  /** Whether each token of `toks` is the text of its span and carries the line reached at the span's end. */
  ghost predicate SlicesFrom(src: string, pos: nat, line: int, toks: seq<Token>, sp: seq<Span>)
    requires forall i :: 0 <= i < |sp| ==> pos <= sp[i].lo < sp[i].hi <= |src|
  {
    && |sp| == |toks| - 1
    && (forall i :: 0 <= i < |sp| ==>
          && toks[i].lexeme == src[sp[i].lo..sp[i].hi]
          && toks[i].line == line + LineBreaks(src, pos, sp[i].hi))
  }

  /** One step in front of a pass that satisfies `SlicesFrom` gives a pass that satisfies it. */
  lemma SlicesStep(src: string, pos: nat, line: int, st: Step, rest: seq<Token>, restSpans: seq<Span>)
    requires pos < |src| && StepFacts(src, pos, line, st)
    requires forall i :: 0 <= i < |restSpans| ==> st.next <= restSpans[i].lo < restSpans[i].hi <= |src|
    requires SlicesFrom(src, st.next, st.line, rest, restSpans)
    ensures var sp := (if st.emitted == [] then [] else [Span(pos, st.next)]) + restSpans;
      SlicesFrom(src, pos, line, st.emitted + rest, sp)
  {
    var head := st.emitted;
    var sp := (if head == [] then [] else [Span(pos, st.next)]) + restSpans;
    var toks := head + rest;
    forall i | 0 <= i < |sp|
      ensures toks[i].lexeme == src[sp[i].lo..sp[i].hi]
      ensures toks[i].line == line + LineBreaks(src, pos, sp[i].hi)
    {
      if i >= |head| {
        var k := i - |head|;
        assert sp[i] == restSpans[k];
        assert toks[i] == rest[k];
        LineBreaksSplit(src, pos, st.next, restSpans[k].hi);
      }
    }
  }

  /**
   * Every token but the EOF is the text of its own source range, and its
   * line is the starting line plus the line breaks up to the END of that
   * range (so a string spanning lines carries the line of its closing quote).
   */
  lemma {:induction false} LexemesAreSlices(src: string, pos: nat, line: int)
    requires pos <= |src|
    ensures SlicesFrom(src, pos, line, ScanFrom(src, pos, line).tokens, TokenSpans(src, pos, line))
    decreases |src| - pos
  {
    if pos < |src| {
      var st := ScanStep(src, pos, line);
      LexemesAreSlices(src, st.next, st.line);
      SlicesStep(src, pos, line, st, ScanFrom(src, st.next, st.line).tokens, TokenSpans(src, st.next, st.line));
    }
  }

  /** Every error the scanner reports is lexical and has no location. */
  lemma {:induction false} ErrorsAreLexical(src: string, pos: nat, line: int)
    requires pos <= |src|
    ensures forall e <- ScanFrom(src, pos, line).errors :: e.location == "" && LexicalMessage(e.message)
    decreases |src| - pos
  {
    if pos < |src| {
      var st := ScanStep(src, pos, line);
      ErrorsAreLexical(src, st.next, st.line);
    }
  }

  /** The token a step emits at an 'o' is never an IDENTIFIER. */
  lemma NoIdentifierAtO(src: string, pos: nat, line: int)
    requires pos < |src| && src[pos] == 'o'
    ensures forall t <- ScanStep(src, pos, line).emitted :: t.kind == OR
  {
    assert Classify(src[pos]) == LetterO;
  }

  /** No IDENTIFIER that one step emits begins with 'o'. */
  lemma StepIdentifierNotAtO(src: string, pos: nat, line: int)
    requires pos < |src|
    ensures forall t <- ScanStep(src, pos, line).emitted :: t.kind == IDENTIFIER ==> t.lexeme != [] && t.lexeme[0] != 'o'
  {
    var st := ScanStep(src, pos, line);
    if src[pos] == 'o' {
      NoIdentifierAtO(src, pos, line);
    } else if st.emitted != [] {
      assert st.emitted == [st.emitted[0]];
      assert st.emitted[0].lexeme[0] == src[pos];
    }
  }

  /** A leading 'o' never starts a word, so no IDENTIFIER begins with 'o'. */
  lemma {:induction false} NoIdentifierStartsWithO(src: string, pos: nat, line: int)
    requires pos <= |src|
    ensures forall t <- ScanFrom(src, pos, line).tokens :: t.kind == IDENTIFIER ==> t.lexeme != [] && t.lexeme[0] != 'o'
    decreases |src| - pos
  {
    if pos < |src| {
      var st := ScanStep(src, pos, line);
      NoIdentifierStartsWithO(src, st.next, st.line);
      StepIdentifierNotAtO(src, pos, line);
      assert ScanFrom(src, pos, line).tokens == st.emitted + ScanFrom(src, st.next, st.line).tokens;
    }
  }

  /** The kinds of `c` alone and of `c` followed by '='. */
  function OperatorKinds(c: char): (TokenType, TokenType)
    requires c in "!=<>"
  {
    match c
    case '!' => (BANG, BANG_EQUAL)
    case '=' => (EQUAL, EQUAL_EQUAL)
    case '<' => (LESS, LESS_EQUAL)
    case '>' => (GREATER, GREATER_EQUAL)
  }

  /** `!`, `=`, `<` and `>` combine greedily with a following '='. */
  lemma TwoCharacterOperators(src: string, pos: nat, line: int)
    requires pos < |src| && src[pos] in "!=<>"
    ensures var (single, double) := OperatorKinds(src[pos]);
      if pos + 1 < |src| && src[pos + 1] == '=' then
        ScanStep(src, pos, line) == Step(pos + 2, line, [Token(double, [src[pos], '='], Nil, line)], [])
      else
        ScanStep(src, pos, line) == Step(pos + 1, line, [Token(single, [src[pos]], Nil, line)], [])
  {
    assert Classify(src[pos]) == Operator(OperatorKinds(src[pos]).0, OperatorKinds(src[pos]).1);
    assert src[pos..pos + 1] == [src[pos]];
    if pos + 1 < |src| {
      assert src[pos..pos + 2] == [src[pos], src[pos + 1]];
    }
  }

  /** `//` skips up to, not including, the next line break, emitting nothing. */
  lemma LineComments(src: string, pos: nat, line: int)
    requires pos + 1 < |src| && src[pos] == '/' && src[pos + 1] == '/'
    ensures var e := CommentEnd(src, pos + 2);
      && ScanStep(src, pos, line) == Step(e, line, [], [])
      && (e == |src| || src[e] == '\n')
      && forall k :: pos + 2 <= k < e ==> src[k] != '\n'
  {
  }

  /** A '/' not followed by '/' is SLASH. */
  lemma LoneSlash(src: string, pos: nat, line: int)
    requires pos < |src| && src[pos] == '/' && !(pos + 1 < |src| && src[pos + 1] == '/')
    ensures ScanStep(src, pos, line) == Step(pos + 1, line, [Token(SLASH, "/", Nil, line)], [])
  {
    assert src[pos..pos + 1] == "/";
  }

  /** Space, carriage return and tab produce nothing; a line break only advances the line. */
  lemma Whitespace(src: string, pos: nat, line: int)
    requires pos < |src| && src[pos] in " \r\t\n"
    ensures ScanStep(src, pos, line) == Step(pos + 1, if src[pos] == '\n' then line + 1 else line, [], [])
  {
  }

  /**
   * A string literal keeps its quotes in the lexeme, has the text between
   * them as its literal and carries the line of its closing quote; without
   * a closing quote it is reported at the last line and nothing is emitted.
   */
  lemma StringLiterals(src: string, pos: nat, line: int)
    requires pos < |src| && src[pos] == '"'
    ensures var e := StringEnd(src, pos + 1);
            var l := line + LineBreaks(src, pos + 1, e);
      && (forall k :: pos + 1 <= k < e ==> src[k] != '"')
      && (e < |src| ==>
            src[e] == '"' &&
            ScanStep(src, pos, line) == Step(e + 1, l, [Token(STRING, src[pos..e + 1], Str(src[pos + 1..e]), l)], []))
      && (e == |src| ==>
            ScanStep(src, pos, line) == Step(e, l, [], [Report(l, "", "Unterminated string.")]))
  {
    var e := StringEnd(src, pos + 1);
    QuoteStep(src, pos, line);
    if e < |src| {
      ClosedString(src, pos, line);
    } else {
      UnterminatedString(src, pos, line);
    }
  }

  /** A '"' starts `string()`. */
  lemma QuoteStep(src: string, pos: nat, line: int)
    requires pos < |src| && src[pos] == '"'
    ensures ScanStep(src, pos, line) == StringStep(src, pos, line)
  {
    assert Classify(src[pos]) == Quote;
  }

  /**
   * A number is digits, then '.' and more digits only when a digit follows
   * the '.'; its literal is its decimal value.
   */
  lemma NumberLiterals(src: string, pos: nat, line: int)
    requires pos < |src| && IsDigit(src[pos])
    ensures var d := DigitsEnd(src, pos + 1);
            var e := NumberEnd(src, pos + 1);
      && ScanStep(src, pos, line) == Step(e, line, [Token(NUMBER, src[pos..e], Num(DecimalValue(src[pos..e])), line)], [])
      && (forall k :: pos <= k < d ==> IsDigit(src[k]))
      && (d < |src| ==> !IsDigit(src[d]))
      && (if d + 1 < |src| && src[d] == '.' && IsDigit(src[d + 1]) then
            && d + 1 < e
            && (forall k :: d + 1 <= k < e ==> IsDigit(src[k]))
            && (e < |src| ==> !IsDigit(src[e]))
          else e == d)
  {
    NumberShape(src, pos);
    assert Classify(src[pos]) == Other;
    assert ScanStep(src, pos, line) == NumberStep(src, pos, line);
  }

  /** The digits and the optional fraction that make up a number lexeme. */
  lemma NumberShape(src: string, pos: nat)
    requires pos < |src| && IsDigit(src[pos])
    ensures var d := DigitsEnd(src, pos + 1);
            var e := NumberEnd(src, pos + 1);
      && (forall k :: pos <= k < d ==> IsDigit(src[k]))
      && (d < |src| ==> !IsDigit(src[d]))
      && (if d + 1 < |src| && src[d] == '.' && IsDigit(src[d + 1]) then
            && d + 1 < e
            && (forall k :: d + 1 <= k < e ==> IsDigit(src[k]))
            && (e < |src| ==> !IsDigit(src[e]))
          else e == d)
  {
  }

  /**
   * A word that does not start with 'o' is the longest run of letters,
   * digits and underscores, with its keyword kind or IDENTIFIER.
   */
  lemma Words(src: string, pos: nat, line: int)
    requires pos < |src| && IsAlpha(src[pos]) && src[pos] != 'o'
    ensures var e := IdentifierEnd(src, pos + 1);
      && ScanStep(src, pos, line) == Step(e, line, [Token(WordKind(src[pos..e]), src[pos..e], Nil, line)], [])
      && (forall k :: pos <= k < e ==> IsAlphaNumeric(src[k]))
      && (e < |src| ==> !IsAlphaNumeric(src[e]))
  {
    assert Classify(src[pos]) == Other;
  }

  /** A leading 'o' followed by 'r' is OR; any other 'o' is dropped without a token or an error. */
  lemma LeadingO(src: string, pos: nat, line: int)
    requires pos < |src| && src[pos] == 'o'
    ensures if pos + 1 < |src| && src[pos + 1] == 'r' then
        ScanStep(src, pos, line) == Step(pos + 2, line, [Token(OR, "or", Nil, line)], [])
      else
        ScanStep(src, pos, line) == Step(pos + 1, line, [], [])
  {
    if pos + 1 < |src| && src[pos + 1] == 'r' {
      assert src[pos..pos + 2] == "or";
    }
  }

  /** The characters `scanToken` has a case for. */
  predicate Recognised(c: char) {
    c in "(){},.-+;*!=<>/ \r\t\n\"o" || IsDigit(c) || IsAlpha(c)
  }

  /** Any other character is reported and skipped; scanning goes on from the next one. */
  lemma UnexpectedCharacters(src: string, pos: nat, line: int)
    requires pos < |src| && !Recognised(src[pos])
    ensures ScanStep(src, pos, line) == Step(pos + 1, line, [], [Report(line, "", "Unexpected character.")])
  {
    assert Classify(src[pos]) == Other;
  }
}
