/**
 * The parser (src/main/java/Parser.java). The pure functions say what each
 * recursive-descent method returns from cursor `pos`: the tree and the cursor
 * it leaves, or the syntax error it throws. The class `Parser` keeps the
 * Java object's token list, `current` cursor and the errors it reports, and
 * each of its methods is proved against the function of the same name.
 */
module Parsing {
  import opened Wrappers
  import opened Values
  import opened Tokens
  import opened Reports
  import opened Syntax

  /** A token list as the scanner leaves it: non-empty and ending in EOF. */
  predicate WellFormed(toks: seq<Token>) {
    |toks| > 0 && toks[|toks| - 1].kind == EOF
  }

  /** `isAtEnd()` with the cursor at `pos`. */
  predicate AtEnd(toks: seq<Token>, pos: nat)
    requires pos < |toks|
  {
    toks[pos].kind == EOF
  }

  /** `check(kind)`: never true at EOF. */
  predicate CheckAt(toks: seq<Token>, pos: nat, kind: TokenType)
    requires pos < |toks|
  {
    !AtEnd(toks, pos) && toks[pos].kind == kind
  }

  /** Whether `match(kinds...)` consumes the token at `pos`. */
  predicate MatchesAny(toks: seq<Token>, pos: nat, kinds: seq<TokenType>)
    requires pos < |toks|
  {
    !AtEnd(toks, pos) && toks[pos].kind in kinds
  }

  /** A cursor that is not at EOF has a token after it. */
  lemma NotAtEndHasNext(toks: seq<Token>, pos: nat)
    requires WellFormed(toks) && pos < |toks| && !AtEnd(toks, pos)
    ensures pos + 1 < |toks|
  {
  }

  /** The operators of the four binary levels: equality, comparison, term, factor. */
  function Operators(level: nat): seq<TokenType>
    requires level < 4
  {
    match level
    case 0 => [BANG_EQUAL, EQUAL_EQUAL]
    case 1 => [GREATER, GREATER_EQUAL, LESS, LESS_EQUAL]
    case 2 => [MINUS, PLUS]
    case 3 => [SLASH, STAR]
  }

  /** The `ParseError` thrown by `error(token, message)`, with the token's index. */
  datatype ParseError = ParseError(at: nat, message: string)

  /** A tree and the cursor after it. */
  datatype Parsed = Parsed(expr: Expr, next: nat)

  type ParseResult = Result<Parsed, ParseError>

  /** The two messages the parser reports. */
  predicate SyntaxMessage(m: string) {
    m == "Expect expression." || m == "Expect ')' after expression"
  }

  /**
   * What every parsing function guarantees from cursor `pos`: on success it
   * consumed at least one token when `strict` holds, never an EOF, and the
   * cursor stays in the list; on failure the error is at a token from `pos`
   * on and carries one of the two syntax messages.
   */
  ghost predicate Progress(toks: seq<Token>, pos: nat, r: ParseResult, strict: bool)
    requires pos < |toks|
  {
    match r
    case Success(p) =>
      && (if strict then pos < p.next else pos <= p.next)
      && p.next < |toks|
      && forall k :: pos <= k < p.next ==> toks[k].kind != EOF
    case Failure(e) => pos <= e.at < |toks| && SyntaxMessage(e.message)
  }

  /** `expression()`. */
  function ParseExpression(toks: seq<Token>, pos: nat): (r: ParseResult)
    requires WellFormed(toks) && pos < |toks|
    ensures Progress(toks, pos, r, true)
    decreases |toks| - pos, 11
  {
    ParseLevel(toks, pos, 0)
  }

  /** `equality()`, `comparison()`, `term()` and `factor()`: an operand, then the level's loop. */
  function ParseLevel(toks: seq<Token>, pos: nat, level: nat): (r: ParseResult)
    requires WellFormed(toks) && pos < |toks| && level < 4
    ensures Progress(toks, pos, r, true)
    decreases |toks| - pos, 2 * (4 - level) + 2
  {
    var left :- ParseOperand(toks, pos, level);
    LevelLoop(toks, level, left.expr, left.next)
  }

  /** The operand of a level: the next level up, or `unary()` above factor. */
  function ParseOperand(toks: seq<Token>, pos: nat, level: nat): (r: ParseResult)
    requires WellFormed(toks) && pos < |toks| && level < 4
    ensures Progress(toks, pos, r, true)
    decreases |toks| - pos, 2 * (4 - level) + 1
  {
    if level == 3 then ParseUnary(toks, pos) else ParseLevel(toks, pos, level + 1)
  }

  /**
   * The `while (match(...))` loop of a level with the tree built so far in
   * `left`: each operator and operand become a Binary node whose left child
   * is everything before it.
   */
  function LevelLoop(toks: seq<Token>, level: nat, left: Expr, pos: nat): (r: ParseResult)
    requires WellFormed(toks) && pos < |toks| && level < 4
    ensures Progress(toks, pos, r, false)
    decreases |toks| - pos, 0
  {
    if MatchesAny(toks, pos, Operators(level)) then
      var right :- ParseOperand(toks, pos + 1, level);
      LevelLoop(toks, level, Binary(left, toks[pos], right.expr), right.next)
    else
      Success(Parsed(left, pos))
  }

  /** One turn of a level's loop: an operator and an operand extend the tree. */
  lemma LevelLoopStep(toks: seq<Token>, level: nat, left: Expr, at: nat, right: Expr, next: nat)
    requires WellFormed(toks) && at < |toks| && level < 4 && MatchesAny(toks, at, Operators(level))
    requires ParseOperand(toks, at + 1, level) == Success(Parsed(right, next))
    ensures next < |toks|
    ensures LevelLoop(toks, level, left, at) == LevelLoop(toks, level, Binary(left, toks[at], right), next)
  {
  }

  /** A failing operand after an operator is the failure of the whole loop. */
  lemma LevelLoopFail(toks: seq<Token>, level: nat, left: Expr, at: nat)
    requires WellFormed(toks) && at < |toks| && level < 4 && MatchesAny(toks, at, Operators(level))
    requires ParseOperand(toks, at + 1, level).Failure?
    ensures LevelLoop(toks, level, left, at) == ParseOperand(toks, at + 1, level).PropagateFailure()
  {
  }

  /** A level's loop ends at a token that is not one of its operators. */
  lemma LevelLoopStop(toks: seq<Token>, level: nat, left: Expr, at: nat)
    requires WellFormed(toks) && at < |toks| && level < 4 && !MatchesAny(toks, at, Operators(level))
    ensures LevelLoop(toks, level, left, at) == Success(Parsed(left, at))
  {
  }

  /** `unary()`: prefix `!` and `-` nest to the right, else `primary()`. */
  function ParseUnary(toks: seq<Token>, pos: nat): (r: ParseResult)
    requires WellFormed(toks) && pos < |toks|
    ensures Progress(toks, pos, r, true)
    decreases |toks| - pos, 2
  {
    if MatchesAny(toks, pos, [BANG, MINUS]) then
      var right :- ParseUnary(toks, pos + 1);
      Success(Parsed(Unary(toks[pos], right.expr), right.next))
    else
      ParsePrimary(toks, pos)
  }

  /** `primary()`: a literal, a parenthesized expression, or "Expect expression." */
  function ParsePrimary(toks: seq<Token>, pos: nat): (r: ParseResult)
    requires WellFormed(toks) && pos < |toks|
    ensures Progress(toks, pos, r, true)
    decreases |toks| - pos, 1
  {
    if MatchesAny(toks, pos, [FALSE]) then Success(Parsed(Literal(Bool(false)), pos + 1))
    else if MatchesAny(toks, pos, [TRUE]) then Success(Parsed(Literal(Bool(true)), pos + 1))
    else if MatchesAny(toks, pos, [NIL]) then Success(Parsed(Literal(Nil), pos + 1))
    else if MatchesAny(toks, pos, [NUMBER, STRING]) then Success(Parsed(Literal(toks[pos].literal), pos + 1))
    else if MatchesAny(toks, pos, [LEFT_PAREN]) then
      var inner :- ParseExpression(toks, pos + 1);
      if CheckAt(toks, inner.next, RIGHT_PAREN) then Success(Parsed(Grouping(inner.expr), inner.next + 1))
      else Failure(ParseError(inner.next, "Expect ')' after expression"))
    else
      Failure(ParseError(pos, "Expect expression."))
  }

  /** `parse()` on a fresh parser: the expression at the front, or null on the first syntax error. */
  function Parse(toks: seq<Token>): (r: Option<Expr>)
    requires WellFormed(toks)
    ensures r.Some? <==> ParseExpression(toks, 0).Success?
    ensures r.Some? ==> r.value == ParseExpression(toks, 0).value.expr
  {
    match ParseExpression(toks, 0)
    case Success(p) => Some(p.expr)
    case Failure(_) => None
  }

  /** The kinds `synchronize()` stops in front of: the starts of statements. */
  const StatementStarts: seq<TokenType> := [CLASS, FUN, VAR, FOR, IF, WHILE, PRINT, RETURN]

  /**
   * The loop of `synchronize()` from cursor `pos`: it stops at EOF, just
   * after a ';', or in front of a statement keyword, and skips everything
   * else.
   */
  function SyncFrom(toks: seq<Token>, pos: nat): (r: nat)
    requires WellFormed(toks) && pos < |toks| && (pos > 0 || AtEnd(toks, pos))
    ensures pos <= r < |toks|
    ensures AtEnd(toks, r) || toks[r - 1].kind == SEMICOLON || toks[r].kind in StatementStarts
    ensures forall k :: pos <= k < r ==> toks[k].kind != EOF && toks[k].kind !in StatementStarts
    ensures forall k :: pos <= k + 1 < r ==> toks[k].kind != SEMICOLON
    decreases |toks| - pos
  {
    if AtEnd(toks, pos) then pos
    else if toks[pos - 1].kind == SEMICOLON then pos
    else if toks[pos].kind in StatementStarts then pos
    else SyncFrom(toks, pos + 1)
  }

  /** `advance()` from cursor `pos`: one step, except at EOF. */
  function AdvanceFrom(toks: seq<Token>, pos: nat): (r: nat)
    requires WellFormed(toks) && pos < |toks|
    ensures r < |toks|
    ensures AtEnd(toks, pos) ==> r == pos
    ensures !AtEnd(toks, pos) ==> r == pos + 1
  {
    if AtEnd(toks, pos) then pos else pos + 1
  }

  /**
   * `synchronize()`: skip the current token, then run the loop. Its
   * `advance()` returns `previous()`, which does not exist at cursor 0 on
   * EOF, so that call is excluded as it is for the method.
   */
  function Synchronized(toks: seq<Token>, pos: nat): (r: nat)
    requires WellFormed(toks) && pos < |toks| && (pos > 0 || !AtEnd(toks, pos))
    ensures pos <= r < |toks|
  {
    SyncFrom(toks, AdvanceFrom(toks, pos))
  }

  /**
   * The Java `Parser` object: the token list, the `current` cursor and the
   * errors it has reported through `Cynch.error`. A thrown `ParseError` is
   * a `Failure` result that every method passes straight up.
   */
  class Parser {
    const tokens: seq<Token>
    var current: nat
    var errors: seq<Report>

    ghost predicate Valid()
      reads this
    {
      WellFormed(tokens) && current < |tokens|
    }

    constructor (tokens: seq<Token>)
      requires WellFormed(tokens)
      ensures Valid() && this.tokens == tokens && current == 0 && errors == []
    {
      this.tokens := tokens;
      current := 0;
      errors := [];
    }

    /**
     * What a method that follows `spec` leaves behind: on success the
     * tree and the cursor of `spec` and no new error; on failure the same
     * error, reported once at its token.
     */
    ghost predicate Outcome(r: Result<Expr, ParseError>, spec: ParseResult, errs: seq<Report>)
      reads this
    {
      && r.Success? == spec.Success?
      && (spec.Success? ==> r.value == spec.value.expr && current == spec.value.next && errors == errs)
      && (spec.Failure? ==>
            && r.error == spec.error
            && spec.error.at < |tokens|
            && errors == errs + [ErrorAt(tokens[spec.error.at], spec.error.message)])
    }

    /** `parse()`: the expression, or `None` (Java's null) on the first syntax error. */
    method Parse() returns (r: Option<Expr>)
      requires Valid()
      modifies this`current, this`errors
      ensures Valid()
      ensures match ParseExpression(tokens, old(current))
        case Success(p) => r == Some(p.expr) && current == p.next && errors == old(errors)
        case Failure(e) => r == None && errors == old(errors) + [ErrorAt(tokens[e.at], e.message)]
    {
      var e := Expression();
      match e
      case Success(x) => r := Some(x);
      case Failure(_) => r := None;
    }

    /** `expression()`. */
    method Expression() returns (r: Result<Expr, ParseError>)
      requires Valid()
      modifies this`current, this`errors
      ensures Valid() && Outcome(r, ParseExpression(tokens, old(current)), old(errors))
      decreases |tokens| - current, 12
    {
      r := Equality();
    }

    /** `equality()`. */
    method Equality() returns (r: Result<Expr, ParseError>)
      requires Valid()
      modifies this`current, this`errors
      ensures Valid() && Outcome(r, ParseLevel(tokens, old(current), 0), old(errors))
      decreases |tokens| - current, 11
    {
      r := BinaryLevel(0);
    }

    /** `comparison()`. */
    method Comparison() returns (r: Result<Expr, ParseError>)
      requires Valid()
      modifies this`current, this`errors
      ensures Valid() && Outcome(r, ParseLevel(tokens, old(current), 1), old(errors))
      decreases |tokens| - current, 9
    {
      r := BinaryLevel(1);
    }

    /** `term()`. */
    method Term() returns (r: Result<Expr, ParseError>)
      requires Valid()
      modifies this`current, this`errors
      ensures Valid() && Outcome(r, ParseLevel(tokens, old(current), 2), old(errors))
      decreases |tokens| - current, 7
    {
      r := BinaryLevel(2);
    }

    /** `factor()`. */
    method Factor() returns (r: Result<Expr, ParseError>)
      requires Valid()
      modifies this`current, this`errors
      ensures Valid() && Outcome(r, ParseLevel(tokens, old(current), 3), old(errors))
      decreases |tokens| - current, 5
    {
      r := BinaryLevel(3);
    }

    /**
     * The body shared by `equality()`, `comparison()`, `term()` and
     * `factor()`: an operand, then `while (match(operators))` folding each
     * operator and operand into a left-nested Binary tree.
     */
    method BinaryLevel(level: nat) returns (r: Result<Expr, ParseError>)
      requires Valid() && level < 4
      modifies this`current, this`errors
      ensures Valid() && Outcome(r, ParseLevel(tokens, old(current), level), old(errors))
      decreases |tokens| - current, 2 * (4 - level) + 2
    {
      var left := Operand(level);
      if left.Failure? {
        return Failure(left.error);
      }
      r := OperatorLoop(level, left.value);
    }

    /** The `while (match(operators))` loop of a level, with the tree built so far in `left`. */
    method OperatorLoop(level: nat, left: Expr) returns (r: Result<Expr, ParseError>)
      requires Valid() && level < 4
      modifies this`current, this`errors
      ensures Valid() && Outcome(r, LevelLoop(tokens, level, left, old(current)), old(errors))
      decreases |tokens| - current, 0
    {
      ghost var goal := LevelLoop(tokens, level, left, current);
      var expr := left;
      ghost var at: nat := current;
      var matched := Match(Operators(level));
      while matched
        invariant Valid() && errors == old(errors) && at < |tokens|
        invariant current == (if matched then at + 1 else at)
        invariant matched == MatchesAny(tokens, at, Operators(level))
        invariant LevelLoop(tokens, level, expr, at) == goal
        decreases |tokens| - current
      {
        var operator := Previous();
        assert current == at + 1;
        ghost var step := ParseOperand(tokens, at + 1, level);
        var right := Operand(level);
        if right.Failure? {
          LevelLoopFail(tokens, level, expr, at);
          return Failure(right.error);
        }
        assert step.Success? && step.value == Parsed(right.value, current);
        LevelLoopStep(tokens, level, expr, at, right.value, current);
        expr := Binary(expr, operator, right.value);
        at := current;
        matched := Match(Operators(level));
      }
      LevelLoopStop(tokens, level, expr, at);
      return Success(expr);
    }

    /** The operand call of a level: `comparison()` in `equality()`, ..., `unary()` in `factor()`. */
    method Operand(level: nat) returns (r: Result<Expr, ParseError>)
      requires Valid() && level < 4
      modifies this`current, this`errors
      ensures Valid() && Outcome(r, ParseOperand(tokens, old(current), level), old(errors))
      decreases |tokens| - current, 2 * (4 - level) + 1
    {
      if level == 3 {
        r := Unary();
      } else {
        r := BinaryLevel(level + 1);
      }
    }

    /** `unary()`. */
    method Unary() returns (r: Result<Expr, ParseError>)
      requires Valid()
      modifies this`current, this`errors
      ensures Valid() && Outcome(r, ParseUnary(tokens, old(current)), old(errors))
      decreases |tokens| - current, 2
    {
      var matched := Match([BANG, MINUS]);
      if matched {
        r := Prefix();
        return;
      }
      r := Primary();
    }

    /** The prefix arm of `unary()`, entered just after the `!` or `-`. */
    method Prefix() returns (r: Result<Expr, ParseError>)
      requires Valid() && 0 < current && tokens[current - 1].kind in [BANG, MINUS]
      modifies this`current, this`errors
      ensures Valid() && Outcome(r, ParseUnary(tokens, old(current) - 1), old(errors))
      decreases |tokens| - current, 3
    {
      var operator := Previous();
      var right := Unary();
      if right.Failure? {
        return Failure(right.error);
      }
      return Success(Syntax.Unary(operator, right.value));
    }

    /** `primary()`. */
    method Primary() returns (r: Result<Expr, ParseError>)
      requires Valid()
      modifies this`current, this`errors
      ensures Valid() && Outcome(r, ParsePrimary(tokens, old(current)), old(errors))
      decreases |tokens| - current, 1
    {
      var m := Match([FALSE]);
      if m {
        return Success(Literal(Bool(false)));
      }
      m := Match([TRUE]);
      if m {
        return Success(Literal(Bool(true)));
      }
      m := Match([NIL]);
      if m {
        return Success(Literal(Nil));
      }
      m := Match([NUMBER, STRING]);
      if m {
        var t := Previous();
        return Success(Literal(t.literal));
      }
      m := Match([LEFT_PAREN]);
      if m {
        r := Group();
        return;
      }
      var e := Error(current, "Expect expression.");
      return Failure(e);
    }

    /** The parenthesized arm of `primary()`, entered just after the '('. */
    method Group() returns (r: Result<Expr, ParseError>)
      requires Valid() && 0 < current && tokens[current - 1].kind == LEFT_PAREN
      modifies this`current, this`errors
      ensures Valid() && Outcome(r, ParsePrimary(tokens, old(current) - 1), old(errors))
      decreases |tokens| - current, 13
    {
      var inner := Expression();
      if inner.Failure? {
        return Failure(inner.error);
      }
      var closing := Consume(RIGHT_PAREN, "Expect ')' after expression");
      if closing.Failure? {
        return Failure(closing.error);
      }
      return Success(Grouping(inner.value));
    }

    /** `match(kinds...)`: tries each kind in turn and consumes the token on the first hit. */
    method Match(kinds: seq<TokenType>) returns (b: bool)
      requires Valid()
      modifies this`current
      ensures Valid()
      ensures b == MatchesAny(tokens, old(current), kinds)
      ensures current == old(current) + (if b then 1 else 0)
    {
      for i := 0 to |kinds|
        invariant current == old(current)
        invariant forall j :: 0 <= j < i ==> !CheckAt(tokens, current, kinds[j])
      {
        if Check(kinds[i]) {
          var _ := Advance();
          return true;
        }
      }
      return false;
    }

    /** `consume(kind, message)`: the expected token, or the error at the current one. */
    method Consume(kind: TokenType, message: string) returns (r: Result<Token, ParseError>)
      requires Valid()
      modifies this`current, this`errors
      ensures Valid()
      ensures CheckAt(tokens, old(current), kind) ==>
        r == Success(tokens[old(current)]) && current == old(current) + 1 && errors == old(errors)
      ensures !CheckAt(tokens, old(current), kind) ==>
        && r == Failure(ParseError(old(current), message)) && current == old(current)
        && errors == old(errors) + [ErrorAt(tokens[current], message)]
    {
      if Check(kind) {
        var t := Advance();
        return Success(t);
      }
      var e := Error(current, message);
      return Failure(e);
    }

    /** `check(kind)`. */
    predicate Check(kind: TokenType)
      reads this
      requires Valid()
    {
      if IsAtEnd() then false else Peek().kind == kind
    }

    /** `advance()`: returns the token it steps over; at EOF it stays put and returns the previous one. */
    method Advance() returns (t: Token)
      requires Valid() && (current > 0 || !IsAtEnd())
      modifies this`current
      ensures Valid() && current == AdvanceFrom(tokens, old(current)) && t == tokens[current - 1]
    {
      if !IsAtEnd() {
        current := current + 1;
      }
      t := Previous();
    }

    predicate IsAtEnd()
      reads this
      requires Valid()
    {
      Peek().kind == EOF
    }

    function Peek(): Token
      reads this
      requires Valid()
    {
      tokens[current]
    }

    function Previous(): Token
      reads this
      requires Valid() && current > 0
    {
      tokens[current - 1]
    }

    /** `error(token, message)`: reports through `Cynch.error` and returns the exception to throw. */
    method Error(at: nat, message: string) returns (e: ParseError)
      requires Valid() && at < |tokens|
      modifies this`errors
      ensures e == ParseError(at, message)
      ensures errors == old(errors) + [ErrorAt(tokens[at], message)]
    {
      errors := errors + [ErrorAt(tokens[at], message)];
      e := ParseError(at, message);
    }

    /** `synchronize()`: discards tokens up to the next statement boundary. */
    method Synchronize()
      requires Valid() && (current > 0 || !IsAtEnd())
      modifies this`current
      ensures Valid() && current == Synchronized(tokens, old(current))
    {
      var _ := Advance();
      while !IsAtEnd()
        invariant Valid() && current > 0
        invariant SyncFrom(tokens, current) == Synchronized(tokens, old(current))
        decreases |tokens| - current
      {
        if Previous().kind == SEMICOLON {
          return;
        }
        if Peek().kind in StatementStarts {
          return;
        }
        var _ := Advance();
      }
    }
  }
}
