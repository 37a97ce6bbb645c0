/**
 * Small sources taken through src/main/java/Scanner.java: the scans of
 * "order", "1." and "1 + 2 * 3", built one step at a time.
 */
module ScanningExamples {
  import opened Values
  import opened Tokens
  import opened Scanning
  import opened ScanningProperties

  /** A step that reports nothing, in front of a clean rest, puts its tokens in front. */
  lemma ScanFromCons(src: string, pos: nat, line: int, next: nat, after: int, emitted: seq<Token>, rest: seq<Token>)
    requires pos < |src| && ScanStep(src, pos, line) == Step(next, after, emitted, [])
    requires next <= |src| && ScanFrom(src, next, after) == Scanned(rest, [])
    ensures ScanFrom(src, pos, line) == Scanned(emitted + rest, [])
  {
  }

  /** A one-character token. */
  lemma SingleCharacter(src: string, pos: nat, line: int, kind: TokenType)
    requires pos < |src| && Classify(src[pos]) == Single(kind)
    ensures ScanStep(src, pos, line) == Step(pos + 1, line, [Token(kind, [src[pos]], Nil, line)], [])
  {
    assert src[pos..pos + 1] == [src[pos]];
  }

  /**
   * A digit followed by no digit, and by no '.' that has a digit after it,
   * is a one-character NUMBER whose literal is its value.
   */
  lemma SingleDigit(src: string, pos: nat, line: int)
    requires pos < |src| && IsDigit(src[pos])
    requires pos + 1 < |src| ==> !IsDigit(src[pos + 1])
    requires pos + 2 < |src| && src[pos + 1] == '.' ==> !IsDigit(src[pos + 2])
    ensures ScanStep(src, pos, line) == Step(pos + 1, line, [Token(NUMBER, [src[pos]], Num(DigitValue(src[pos]) as real), line)], [])
  {
    NumberLiterals(src, pos, line);
    assert DigitsEnd(src, pos + 1) == pos + 1;
    var text := src[pos..pos + 1];
    assert text == [src[pos]];
    assert DotIndex(text, 0) == 1;
    assert text[..1] == text && text[..0] == [];
    assert DigitsValue(text) == DigitValue(src[pos]);
  }

  /** The letters "der" in a five-character source end it and make no keyword. */
  lemma DerWord(src: string)
    requires |src| == 5 && src[2] == 'd' && src[3] == 'e' && src[4] == 'r'
    ensures IdentifierEnd(src, 3) == 5 && src[2..5] == "der" && WordKind(src[2..5]) == IDENTIFIER
  {
    assert IdentifierEnd(src, 5) == 5;
    assert IdentifierEnd(src, 4) == 5;
    var word := src[2..5];
    assert word == "der" by {
      assert |word| == 3 && word[0] == 'd' && word[1] == 'e' && word[2] == 'r';
    }
    assert word !in Keywords;
  }

  /** The word "der" at the end of a five-character source is an IDENTIFIER. */
  lemma DerTail(src: string)
    requires |src| == 5 && src[2] == 'd' && src[3] == 'e' && src[4] == 'r'
    ensures ScanFrom(src, 2, 1) == Scanned([Token(IDENTIFIER, "der", Nil, 1), Token(EOF, "", Nil, 1)], [])
  {
    DerWord(src);
    Words(src, 2, 1);
    assert ScanFrom(src, 5, 1) == Scanned([Token(EOF, "", Nil, 1)], []);
    ScanFromCons(src, 2, 1, 5, 1, [Token(IDENTIFIER, "der", Nil, 1)], [Token(EOF, "", Nil, 1)]);
  }

  /** "order" is the keyword `or` followed by the identifier `der`: no identifier starts with 'o'. */
  lemma ScanOrder(src: string)
    requires src == "order"
    ensures Scan(src) == Scanned([Token(OR, "or", Nil, 1), Token(IDENTIFIER, "der", Nil, 1), Token(EOF, "", Nil, 1)], [])
  {
    assert |src| == 5 && src[0] == 'o' && src[1] == 'r' && src[2] == 'd' && src[3] == 'e' && src[4] == 'r';
    DerTail(src);
    LeadingO(src, 0, 1);
    ScanFromCons(src, 0, 1, 2, 1, [Token(OR, "or", Nil, 1)], [Token(IDENTIFIER, "der", Nil, 1), Token(EOF, "", Nil, 1)]);
  }

  /** "1." is the number 1 and a DOT: a '.' without a digit after it is not part of a number. */
  lemma ScanTrailingDot(src: string)
    requires src == "1."
    ensures Scan(src) == Scanned([Token(NUMBER, "1", Num(1.0), 1), Token(DOT, ".", Nil, 1), Token(EOF, "", Nil, 1)], [])
  {
    assert |src| == 2 && src[0] == '1' && src[1] == '.';
    SingleDigit(src, 0, 1);
    assert [src[0]] == "1" && DigitValue(src[0]) == 1;
    SingleCharacter(src, 1, 1, DOT);
    assert [src[1]] == ".";
    ScanFromCons(src, 1, 1, 2, 1, [Token(DOT, ".", Nil, 1)], [Token(EOF, "", Nil, 1)]);
    ScanFromCons(src, 0, 1, 1, 1, [Token(NUMBER, "1", Num(1.0), 1)], [Token(DOT, ".", Nil, 1), Token(EOF, "", Nil, 1)]);
  }

  /** The tokens the scanner makes of "1 + 2 * 3" (`ScanSum`). */
  function SumTokens(): seq<Token> {
    [Token(NUMBER, "1", Num(1.0), 1), Token(PLUS, "+", Nil, 1), Token(NUMBER, "2", Num(2.0), 1),
     Token(STAR, "*", Nil, 1), Token(NUMBER, "3", Num(3.0), 1), Token(EOF, "", Nil, 1)]
  }

  /** A blank in front of a clean rest adds nothing. */
  lemma BlankCons(src: string, pos: nat, rest: seq<Token>)
    requires pos < |src| && src[pos] == ' ' && ScanFrom(src, pos + 1, 1) == Scanned(rest, [])
    ensures ScanFrom(src, pos, 1) == Scanned(rest, [])
  {
    var st := ScanStep(src, pos, 1);
    Whitespace(src, pos, 1);
    assert st.next == pos + 1 && st.line == 1 && st.emitted == [] && st.reported == [];
    assert st.emitted + rest == rest;
  }

  /** A digit, followed by a blank or by nothing, in front of a clean scan of the rest. */
  lemma DigitCons(src: string, pos: nat, text: string, v: real, rest: seq<Token>)
    requires pos < |src| && IsDigit(src[pos]) && [src[pos]] == text && DigitValue(src[pos]) as real == v
    requires pos + 1 < |src| ==> src[pos + 1] == ' '
    requires ScanFrom(src, pos + 1, 1) == Scanned(rest, [])
    ensures ScanFrom(src, pos, 1) == Scanned([Token(NUMBER, text, Num(v), 1)] + rest, [])
  {
    SingleDigit(src, pos, 1);
    ScanFromCons(src, pos, 1, pos + 1, 1, [Token(NUMBER, text, Num(v), 1)], rest);
  }

  /** An operator character in front of a clean scan of the rest. */
  lemma OperatorCons(src: string, pos: nat, kind: TokenType, text: string, rest: seq<Token>)
    requires pos < |src| && Classify(src[pos]) == Single(kind) && [src[pos]] == text
    requires ScanFrom(src, pos + 1, 1) == Scanned(rest, [])
    ensures ScanFrom(src, pos, 1) == Scanned([Token(kind, text, Nil, 1)] + rest, [])
  {
    SingleCharacter(src, pos, 1, kind);
    ScanFromCons(src, pos, 1, pos + 1, 1, [Token(kind, text, Nil, 1)], rest);
  }

  /** `src` is "1 + 2 * 3", character by character. */
  predicate SumText(src: string) {
    && |src| == 9 && src[0] == '1' && src[1] == ' ' && src[2] == '+' && src[3] == ' ' && src[4] == '2'
    && src[5] == ' ' && src[6] == '*' && src[7] == ' ' && src[8] == '3'
  }

  /** The characters of "1 + 2 * 3" and their classes. */
  lemma SumCharacters(src: string)
    requires SumText(src)
    ensures |src| == 9 && src[1] == src[3] == src[5] == src[7] == ' '
    ensures IsDigit(src[0]) && IsDigit(src[4]) && IsDigit(src[8])
    ensures DigitValue(src[0]) == 1 && DigitValue(src[4]) == 2 && DigitValue(src[8]) == 3
    ensures [src[0]] == "1" && [src[4]] == "2" && [src[8]] == "3" && [src[2]] == "+" && [src[6]] == "*"
    ensures Classify(src[2]) == Single(PLUS) && Classify(src[6]) == Single(STAR)
  {
  }

  /** The scan of "* 3" at the end of "1 + 2 * 3". */
  lemma SumProduct(src: string)
    requires SumText(src)
    ensures ScanFrom(src, 6, 1) == Scanned([Token(STAR, "*", Nil, 1)] + ([Token(NUMBER, "3", Num(3.0), 1)] + [Token(EOF, "", Nil, 1)]), [])
  {
    SumCharacters(src);
    assert ScanFrom(src, 9, 1) == Scanned([Token(EOF, "", Nil, 1)], []);
    DigitCons(src, 8, "3", 3.0, [Token(EOF, "", Nil, 1)]);
    BlankCons(src, 7, [Token(NUMBER, "3", Num(3.0), 1)] + [Token(EOF, "", Nil, 1)]);
    OperatorCons(src, 6, STAR, "*", [Token(NUMBER, "3", Num(3.0), 1)] + [Token(EOF, "", Nil, 1)]);
  }

  /** The scan of " 2 * 3" inside "1 + 2 * 3". */
  lemma SumMiddle(src: string, product: seq<Token>)
    requires SumText(src) && ScanFrom(src, 6, 1) == Scanned(product, [])
    ensures ScanFrom(src, 3, 1) == Scanned([Token(NUMBER, "2", Num(2.0), 1)] + product, [])
  {
    SumCharacters(src);
    BlankCons(src, 5, product);
    DigitCons(src, 4, "2", 2.0, product);
    BlankCons(src, 3, [Token(NUMBER, "2", Num(2.0), 1)] + product);
  }

  /** The scan of " + 2 * 3" inside "1 + 2 * 3". */
  lemma SumRight(src: string, middle: seq<Token>)
    requires SumText(src) && ScanFrom(src, 3, 1) == Scanned(middle, [])
    ensures ScanFrom(src, 1, 1) == Scanned([Token(PLUS, "+", Nil, 1)] + middle, [])
  {
    SumCharacters(src);
    OperatorCons(src, 2, PLUS, "+", middle);
    BlankCons(src, 1, [Token(PLUS, "+", Nil, 1)] + middle);
  }

  /** The tokens of " + 2 * 3", one at a time. */
  function SumRest(): seq<Token> {
    [Token(PLUS, "+", Nil, 1)] + ([Token(NUMBER, "2", Num(2.0), 1)]
      + ([Token(STAR, "*", Nil, 1)] + ([Token(NUMBER, "3", Num(3.0), 1)] + [Token(EOF, "", Nil, 1)])))
  }

  /** The scan of " + 2 * 3" inside "1 + 2 * 3". */
  lemma SumAfterOne(src: string)
    requires SumText(src)
    ensures ScanFrom(src, 1, 1) == Scanned(SumRest(), [])
  {
    SumProduct(src);
    var product := [Token(STAR, "*", Nil, 1)] + ([Token(NUMBER, "3", Num(3.0), 1)] + [Token(EOF, "", Nil, 1)]);
    SumMiddle(src, product);
    SumRight(src, [Token(NUMBER, "2", Num(2.0), 1)] + product);
  }

  /** `SumTokens`, one token at a time. */
  lemma SumTokensCons()
    ensures SumTokens() == [Token(NUMBER, "1", Num(1.0), 1)] + SumRest()
  {
  }

  /** The tokens the scanner makes of "1 + 2 * 3" are `SumTokens`. */
  lemma ScanSum(src: string)
    requires SumText(src)
    ensures Scan(src) == Scanned(SumTokens(), [])
  {
    SumCharacters(src);
    SumAfterOne(src);
    DigitCons(src, 0, "1", 1.0, SumRest());
    SumTokensCons();
  }
}
