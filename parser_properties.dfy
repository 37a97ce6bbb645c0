/**
 * What the grammar of src/main/java/Parser.java means for the trees it
 * builds: the precedence of the four binary levels, their left
 * associativity, right-nested prefix operators, the literal each token
 * stands for, and what happens around the one expression it parses.
 */
module ParsingProperties {
  import opened Wrappers
  import opened Values
  import opened Tokens
  import opened Reports
  import opened Syntax
  import opened Parsing

  /**
   * The binding level of a binary operator, loosest first: equality 0,
   * comparison 1, term 2, factor 3; `None` for every other kind.
   */
  function OpLevel(k: TokenType): Option<nat> {
    match k
    case BANG_EQUAL | EQUAL_EQUAL => Some(0)
    case GREATER | GREATER_EQUAL | LESS | LESS_EQUAL => Some(1)
    case MINUS | PLUS => Some(2)
    case SLASH | STAR => Some(3)
    case _ => None
  }

  /** A level's loop takes exactly the operators of that binding level. */
  lemma LevelOfOperator(toks: seq<Token>, pos: nat, level: nat)
    requires pos < |toks| && level < 4
    ensures MatchesAny(toks, pos, Operators(level)) <==> OpLevel(toks[pos].kind) == Some(level)
  {
  }

  /** Whether `k` is no binary operator of a level in [lo, hi). */
  predicate OutsideLevels(k: TokenType, lo: nat, hi: nat) {
    OpLevel(k).None? || OpLevel(k).value < lo || hi <= OpLevel(k).value
  }

  /** The tokens `primary()` turns into a literal on their own. */
  predicate IsAtom(t: Token) {
    t.kind in {FALSE, TRUE, NIL, NUMBER, STRING}
  }

  /** The value of an atom's literal node. */
  function AtomValue(t: Token): Value
    requires IsAtom(t)
  {
    match t.kind
    case FALSE => Bool(false)
    case TRUE => Bool(true)
    case NIL => Nil
    case _ => t.literal
  }

  /** `false`, `true` and `nil` become their values; a number or string keeps the scanner's literal. */
  lemma {:induction false} AtomPrimary(toks: seq<Token>, pos: nat)
    requires WellFormed(toks) && pos < |toks| && IsAtom(toks[pos])
    ensures ParseUnary(toks, pos) == Success(Parsed(Literal(AtomValue(toks[pos])), pos + 1))
  {
  }

  /** '(' then an expression: a Grouping when ')' follows it, else the error at the token where ')' should be. */
  lemma {:induction false} GroupPrimary(toks: seq<Token>, pos: nat, e: Expr, next: nat)
    requires WellFormed(toks) && pos + 1 < |toks| && toks[pos].kind == LEFT_PAREN
    requires ParseExpression(toks, pos + 1) == Success(Parsed(e, next))
    ensures next < |toks|
    ensures ParseUnary(toks, pos) == if CheckAt(toks, next, RIGHT_PAREN) then Success(Parsed(Grouping(e), next + 1))
      else Failure(ParseError(next, "Expect ')' after expression"))
  {
    assert ParseUnary(toks, pos) == ParsePrimary(toks, pos);
  }

  /**
   * A tree parsed at level `hi` is also the tree of every looser level
   * down to `lo` when the token after it is no operator of those levels.
   */
  lemma {:induction false} Lift(toks: seq<Token>, pos: nat, lo: nat, hi: nat, e: Expr, next: nat)
    requires WellFormed(toks) && pos < |toks| && lo <= hi < 4
    requires ParseLevel(toks, pos, hi) == Success(Parsed(e, next))
    requires OutsideLevels(toks[next].kind, lo, hi)
    ensures ParseLevel(toks, pos, lo) == Success(Parsed(e, next))
    decreases hi - lo
  {
    if lo < hi {
      Lift(toks, pos, lo + 1, hi, e, next);
      LevelOfOperator(toks, next, lo);
      LevelLoopStop(toks, lo, e, next);
    }
  }

  /** An atom followed by no tighter operator is the whole operand of a level. */
  lemma AtomOperand(toks: seq<Token>, pos: nat, level: nat)
    requires WellFormed(toks) && pos + 1 < |toks| && level < 4 && IsAtom(toks[pos])
    requires OutsideLevels(toks[pos + 1].kind, level + 1, 4)
    ensures ParseOperand(toks, pos, level) == Success(Parsed(Literal(AtomValue(toks[pos])), pos + 1))
  {
    AtomPrimary(toks, pos);
    if level < 3 {
      var a := Literal(AtomValue(toks[pos]));
      LevelOfOperator(toks, pos + 1, 3);
      LevelLoopStop(toks, 3, a, pos + 1);
      Lift(toks, pos, level + 1, 3, a, pos + 1);
    }
  }

  /** The three-operand sentences `a o1 b o2 c` followed by a token that is no binary operator. */
  predicate ThreeOperands(toks: seq<Token>) {
    && WellFormed(toks) && 5 < |toks|
    && IsAtom(toks[0]) && IsAtom(toks[2]) && IsAtom(toks[4])
    && OpLevel(toks[1].kind).Some? && OpLevel(toks[3].kind).Some?
    && OpLevel(toks[5].kind).None?
  }

  /** The nodes of the three atoms of a `ThreeOperands` sentence. */
  function Atoms(toks: seq<Token>): (Expr, Expr, Expr)
    requires ThreeOperands(toks)
  {
    (Literal(AtomValue(toks[0])), Literal(AtomValue(toks[2])), Literal(AtomValue(toks[4])))
  }

  /** A tighter second operator takes the middle operand: `a o1 (b o2 c)`. */
  lemma TighterRight(toks: seq<Token>)
    requires ThreeOperands(toks) && OpLevel(toks[1].kind).value < OpLevel(toks[3].kind).value
    ensures var (a, b, c) := Atoms(toks);
      ParseExpression(toks, 0) == Success(Parsed(Binary(a, toks[1], Binary(b, toks[3], c)), 5))
  {
    var (a, b, c) := Atoms(toks);
    var (l1, l2) := (OpLevel(toks[1].kind).value, OpLevel(toks[3].kind).value);
    var bc := Binary(b, toks[3], c);
    AtomOperand(toks, 2, l2);
    AtomOperand(toks, 4, l2);
    LevelOfOperator(toks, 3, l2);
    LevelLoopStep(toks, l2, b, 3, c, 5);
    LevelOfOperator(toks, 5, l2);
    LevelLoopStop(toks, l2, bc, 5);
    Lift(toks, 2, l1 + 1, l2, bc, 5);
    AtomOperand(toks, 0, l1);
    LevelOfOperator(toks, 1, l1);
    LevelLoopStep(toks, l1, a, 1, bc, 5);
    LevelOfOperator(toks, 5, l1);
    LevelLoopStop(toks, l1, Binary(a, toks[1], bc), 5);
    Lift(toks, 0, 0, l1, Binary(a, toks[1], bc), 5);
  }

  /** Two operators of one level associate to the left: `(a o1 b) o2 c`. */
  lemma SameLevelLeft(toks: seq<Token>)
    requires ThreeOperands(toks) && OpLevel(toks[1].kind).value == OpLevel(toks[3].kind).value
    ensures var (a, b, c) := Atoms(toks);
      ParseExpression(toks, 0) == Success(Parsed(Binary(Binary(a, toks[1], b), toks[3], c), 5))
  {
    var (a, b, c) := Atoms(toks);
    var l := OpLevel(toks[1].kind).value;
    var ab := Binary(a, toks[1], b);
    AtomOperand(toks, 0, l);
    AtomOperand(toks, 2, l);
    AtomOperand(toks, 4, l);
    LevelOfOperator(toks, 1, l);
    LevelLoopStep(toks, l, a, 1, b, 3);
    LevelOfOperator(toks, 3, l);
    LevelLoopStep(toks, l, ab, 3, c, 5);
    LevelOfOperator(toks, 5, l);
    LevelLoopStop(toks, l, Binary(ab, toks[3], c), 5);
    Lift(toks, 0, 0, l, Binary(ab, toks[3], c), 5);
  }

  /** A tighter first operator takes the middle operand: `(a o1 b) o2 c`. */
  lemma TighterLeft(toks: seq<Token>)
    requires ThreeOperands(toks) && OpLevel(toks[1].kind).value > OpLevel(toks[3].kind).value
    ensures var (a, b, c) := Atoms(toks);
      ParseExpression(toks, 0) == Success(Parsed(Binary(Binary(a, toks[1], b), toks[3], c), 5))
  {
    var (a, b, c) := Atoms(toks);
    var (l1, l2) := (OpLevel(toks[1].kind).value, OpLevel(toks[3].kind).value);
    var ab := Binary(a, toks[1], b);
    AtomOperand(toks, 0, l1);
    AtomOperand(toks, 2, l1);
    LevelOfOperator(toks, 1, l1);
    LevelLoopStep(toks, l1, a, 1, b, 3);
    LevelOfOperator(toks, 3, l1);
    LevelLoopStop(toks, l1, ab, 3);
    Lift(toks, 0, l2 + 1, l1, ab, 3);
    AtomOperand(toks, 4, l2);
    LevelOfOperator(toks, 3, l2);
    LevelLoopStep(toks, l2, ab, 3, c, 5);
    LevelOfOperator(toks, 5, l2);
    LevelLoopStop(toks, l2, Binary(ab, toks[3], c), 5);
    Lift(toks, 0, 0, l2, Binary(ab, toks[3], c), 5);
  }

  /**
   * Precedence and associativity: in `a o1 b o2 c`, the operator of the
   * tighter level takes the middle operand; at equal levels the left one
   * does, so the tree nests to the left.
   */
  lemma Precedence(toks: seq<Token>)
    requires ThreeOperands(toks)
    ensures var (a, b, c) := Atoms(toks);
      ParseExpression(toks, 0) == Success(Parsed(
        if OpLevel(toks[1].kind).value < OpLevel(toks[3].kind).value
        then Binary(a, toks[1], Binary(b, toks[3], c))
        else Binary(Binary(a, toks[1], b), toks[3], c),
        5))
  {
    var (l1, l2) := (OpLevel(toks[1].kind).value, OpLevel(toks[3].kind).value);
    if l1 < l2 {
      TighterRight(toks);
    } else if l1 == l2 {
      SameLevelLeft(toks);
    } else {
      TighterLeft(toks);
    }
  }

  /**
   * The tree a level builds from its first operand `left` and the operators
   * and operands that follow: each operator takes everything before it as
   * its left child.
   */
  function FoldLeft(left: Expr, ops: seq<Token>, rights: seq<Expr>): Expr
    requires |ops| == |rights|
    decreases |ops|
  {
    if ops == [] then left else FoldLeft(Binary(left, ops[0], rights[0]), ops[1..], rights[1..])
  }

  /**
   * Left associativity of a chain of any length: the last operator is the
   * root, its right child is the last operand, and its left child is the
   * tree of the chain without them.
   */
  lemma {:induction false} FoldLeftLast(left: Expr, ops: seq<Token>, rights: seq<Expr>)
    requires |ops| == |rights| > 0
    ensures FoldLeft(left, ops, rights)
      == Binary(FoldLeft(left, ops[..|ops| - 1], rights[..|ops| - 1]), ops[|ops| - 1], rights[|ops| - 1])
    decreases |ops|
  {
    var n := |ops|;
    if n == 1 {
      assert ops[..0] == [] && rights[..0] == [];
      assert ops[1..] == [] && rights[1..] == [];
    } else {
      FoldLeftLast(Binary(left, ops[0], rights[0]), ops[1..], rights[1..]);
      assert ops[1..][..n - 2] == ops[..n - 1][1..];
      assert rights[1..][..n - 2] == rights[..n - 1][1..];
    }
  }

  /**
   * Operators `ops` of one level at the indices `at`, each followed by an
   * operand of the next tighter level, `rights`, that ends at the next
   * index; the last index holds no operator of the level.
   */
  predicate Chain(toks: seq<Token>, level: nat, at: seq<nat>, ops: seq<Token>, rights: seq<Expr>) {
    && WellFormed(toks) && level < 4 && |ops| == |rights| && |at| == |ops| + 1
    && (forall i :: 0 <= i < |at| ==> at[i] < |toks|)
    && (forall i :: 0 <= i < |ops| ==>
         && toks[at[i]] == ops[i] && MatchesAny(toks, at[i], Operators(level))
         && ParseOperand(toks, at[i] + 1, level) == Success(Parsed(rights[i], at[i + 1])))
    && !MatchesAny(toks, at[|ops|], Operators(level))
  }

  /** A chain without its first operator and operand is a chain. */
  lemma ChainTail(toks: seq<Token>, level: nat, at: seq<nat>, ops: seq<Token>, rights: seq<Expr>)
    requires Chain(toks, level, at, ops, rights) && ops != []
    ensures Chain(toks, level, at[1..], ops[1..], rights[1..])
  {
    var (at', ops', rights') := (at[1..], ops[1..], rights[1..]);
    forall i | 0 <= i < |ops'|
      ensures toks[at'[i]] == ops'[i] && MatchesAny(toks, at'[i], Operators(level))
      ensures ParseOperand(toks, at'[i] + 1, level) == Success(Parsed(rights'[i], at'[i + 1]))
    {
      assert at'[i] == at[i + 1] && at'[i + 1] == at[i + 2];
    }
  }

  /**
   * A level's loop over a chain of its operators, whatever the operands
   * are, folds them to the left onto `left` and stops at the first token
   * that is not one of the level's operators.
   */
  lemma {:induction false} ChainFoldsLeft(toks: seq<Token>, level: nat, left: Expr, at: seq<nat>, ops: seq<Token>, rights: seq<Expr>)
    requires Chain(toks, level, at, ops, rights)
    ensures LevelLoop(toks, level, left, at[0]) == Success(Parsed(FoldLeft(left, ops, rights), at[|ops|]))
    decreases |ops|
  {
    if ops == [] {
      LevelLoopStop(toks, level, left, at[0]);
    } else {
      LevelLoopStep(toks, level, left, at[0], rights[0], at[1]);
      ChainTail(toks, level, at, ops, rights);
      ChainFoldsLeft(toks, level, Binary(left, ops[0], rights[0]), at[1..], ops[1..], rights[1..]);
    }
  }

  /**
   * `equality()`, `comparison()`, `term()` and `factor()` on a chain of
   * their own operators of any length: the tree nests to the left, with the
   * last operator at the root.
   */
  lemma LevelFoldsLeft(toks: seq<Token>, pos: nat, level: nat, first: Expr, at: seq<nat>, ops: seq<Token>, rights: seq<Expr>)
    requires Chain(toks, level, at, ops, rights) && pos < |toks|
    requires ParseOperand(toks, pos, level) == Success(Parsed(first, at[0]))
    ensures ParseLevel(toks, pos, level) == Success(Parsed(FoldLeft(first, ops, rights), at[|ops|]))
    ensures ops != [] ==>
      ParseLevel(toks, pos, level).value.expr == Binary(FoldLeft(first, ops[..|ops| - 1], rights[..|ops| - 1]), ops[|ops| - 1], rights[|ops| - 1])
  {
    ChainFoldsLeft(toks, level, first, at, ops, rights);
    if ops != [] {
      FoldLeftLast(first, ops, rights);
    }
  }

  /**
   * Precedence as a shape, at every depth: a Binary node at or below
   * `level` has an operator of binding level at least `level`; its left
   * child may hold operators of that same level, its right child only
   * tighter ones. A Grouping starts again from the loosest level, and the
   * operand of a prefix operator holds no Binary node outside a Grouping.
   */
  predicate Layered(e: Expr, level: nat) {
    match e
    case Binary(left, op, right) =>
      && OpLevel(op.kind).Some? && level <= OpLevel(op.kind).value
      && Layered(left, OpLevel(op.kind).value) && Layered(right, OpLevel(op.kind).value + 1)
    case Grouping(inner) => Layered(inner, 0)
    case Unary(_, operand) => Layered(operand, 4)
    case Literal(_) => true
  }

  /** `primary()` builds a literal, or a Grouping around a layered expression. */
  lemma {:induction false} PrimaryLayered(toks: seq<Token>, pos: nat)
    requires WellFormed(toks) && pos < |toks|
    ensures ParsePrimary(toks, pos).Success? ==> Layered(ParsePrimary(toks, pos).value.expr, 4)
    decreases |toks| - pos, 1
  {
    if !MatchesAny(toks, pos, [FALSE]) && !MatchesAny(toks, pos, [TRUE]) && !MatchesAny(toks, pos, [NIL])
      && !MatchesAny(toks, pos, [NUMBER, STRING]) && MatchesAny(toks, pos, [LEFT_PAREN])
    {
      NotAtEndHasNext(toks, pos);
      LevelLayered(toks, pos + 1, 0);
    }
  }

  /**
   * `unary()` never builds a Binary node at its top, and whatever it builds
   * is layered: prefix operators over a primary.
   */
  lemma {:induction false} UnaryLayered(toks: seq<Token>, pos: nat)
    requires WellFormed(toks) && pos < |toks|
    ensures ParseUnary(toks, pos).Success? ==>
      !ParseUnary(toks, pos).value.expr.Binary? && Layered(ParseUnary(toks, pos).value.expr, 4)
    decreases |toks| - pos, 2
  {
    if MatchesAny(toks, pos, [BANG, MINUS]) {
      NotAtEndHasNext(toks, pos);
      UnaryLayered(toks, pos + 1);
    } else {
      PrimaryLayered(toks, pos);
    }
  }

  /** The operand of a level holds only operators of tighter levels at its top. */
  lemma {:induction false} OperandLayered(toks: seq<Token>, pos: nat, level: nat)
    requires WellFormed(toks) && pos < |toks| && level < 4
    ensures ParseOperand(toks, pos, level).Success? ==> Layered(ParseOperand(toks, pos, level).value.expr, level + 1)
    decreases |toks| - pos, 2 * (4 - level) + 1
  {
    if level < 3 {
      LevelLayered(toks, pos, level + 1);
    } else {
      UnaryLayered(toks, pos);
    }
  }

  /** A level's loop keeps the tree layered from that level. */
  lemma {:induction false} LoopLayered(toks: seq<Token>, level: nat, left: Expr, pos: nat)
    requires WellFormed(toks) && pos < |toks| && level < 4 && Layered(left, level)
    ensures LevelLoop(toks, level, left, pos).Success? ==> Layered(LevelLoop(toks, level, left, pos).value.expr, level)
    decreases |toks| - pos, 0
  {
    if MatchesAny(toks, pos, Operators(level)) {
      NotAtEndHasNext(toks, pos);
      var right := ParseOperand(toks, pos + 1, level);
      if right.Success? {
        OperandLayered(toks, pos + 1, level);
        LevelOfOperator(toks, pos, level);
        LevelLoopStep(toks, level, left, pos, right.value.expr, right.value.next);
        LoopLayered(toks, level, Binary(left, toks[pos], right.value.expr), right.value.next);
      }
    }
  }

  /** Every tree a binary level builds is layered from that level. */
  lemma {:induction false} LevelLayered(toks: seq<Token>, pos: nat, level: nat)
    requires WellFormed(toks) && pos < |toks| && level < 4
    ensures ParseLevel(toks, pos, level).Success? ==> Layered(ParseLevel(toks, pos, level).value.expr, level)
    decreases |toks| - pos, 2 * (4 - level) + 2
  {
    var first := ParseOperand(toks, pos, level);
    if first.Success? {
      OperandLayered(toks, pos, level);
      LoopLayered(toks, level, first.value.expr, first.value.next);
    }
  }

  /**
   * Precedence and associativity for every input, inside parentheses as
   * well as outside: whatever `parse()` returns is layered, so operators
   * bind by level, loosest outermost, and each level nests to the left.
   */
  lemma ParsedTreesLayered(toks: seq<Token>)
    requires WellFormed(toks)
    ensures Parse(toks).Some? ==> Layered(Parse(toks).value, 0)
  {
    LevelLayered(toks, 0, 0);
  }

  /**
   * `Layered` reaches inside parentheses: `(1 - 2 - 3)` may hold
   * `(1 - 2) - 3` but not `1 - (2 - 3)`.
   */
  lemma GroupedChainLayered(a: Expr, b: Expr, c: Expr, minus: Token)
    requires minus.kind == MINUS && a.Literal? && b.Literal? && c.Literal?
    ensures Layered(Grouping(Binary(Binary(a, minus, b), minus, c)), 0)
    ensures !Layered(Grouping(Binary(a, minus, Binary(b, minus, c))), 0)
  {
    assert OpLevel(minus.kind) == Some(2) && Layered(a, 2) && Layered(b, 3) && Layered(c, 3);
    assert !Layered(Binary(b, minus, c), 3);
  }

  /** A failing `unary()` is the failure of every level above it. */
  lemma {:induction false} FailureRises(toks: seq<Token>, pos: nat, level: nat)
    requires WellFormed(toks) && pos < |toks| && level < 4 && ParseUnary(toks, pos).Failure?
    ensures ParseLevel(toks, pos, level) == ParseUnary(toks, pos)
    decreases 4 - level
  {
    if level < 3 {
      FailureRises(toks, pos, level + 1);
    }
  }

  /** `ops` applied as prefix operators to `e`, the first outermost. */
  function Nest(ops: seq<Token>, e: Expr): Expr {
    if ops == [] then e else Unary(ops[0], Nest(ops[1..], e))
  }

  /** A run of `!` and `-` in front of an atom nests to the right, the first operator outermost. */
  lemma {:induction false} UnaryNesting(toks: seq<Token>, pos: nat, n: nat)
    requires WellFormed(toks) && pos + n < |toks|
    requires forall k :: pos <= k < pos + n ==> toks[k].kind == BANG || toks[k].kind == MINUS
    requires IsAtom(toks[pos + n])
    ensures ParseUnary(toks, pos) == Success(Parsed(Nest(toks[pos..pos + n], Literal(AtomValue(toks[pos + n]))), pos + n + 1))
    decreases n
  {
    if n == 0 {
      AtomPrimary(toks, pos);
    } else {
      UnaryNesting(toks, pos + 1, n - 1);
      assert toks[pos..pos + n][1..] == toks[pos + 1..pos + n];
    }
  }

  /**
   * `parse()` never checks for EOF: after the first expression the rest
   * of the tokens are left unread, and the tree is still returned.
   */
  lemma TrailingTokensIgnored(toks: seq<Token>)
    requires WellFormed(toks) && 1 < |toks| && IsAtom(toks[0]) && OpLevel(toks[1].kind).None?
    ensures Parse(toks) == Some(Literal(AtomValue(toks[0])))
  {
    var a := Literal(AtomValue(toks[0]));
    AtomOperand(toks, 0, 0);
    LevelOfOperator(toks, 1, 0);
    LevelLoopStop(toks, 0, a, 1);
    assert ParseLevel(toks, 0, 0) == Success(Parsed(a, 1));
  }

  /** Empty input: the error is "Expect expression." at the EOF token, reported " at end". */
  lemma {:induction false} EmptyInput(toks: seq<Token>)
    requires |toks| == 1 && toks[0].kind == EOF
    ensures WellFormed(toks) && ParseExpression(toks, 0) == Failure(ParseError(0, "Expect expression."))
    ensures Parse(toks) == None && Where(toks[0]) == " at end"
  {
    assert ParseUnary(toks, 0) == Failure(ParseError(0, "Expect expression."));
    FailureRises(toks, 0, 0);
  }

  /**
   * A parenthesized expression that is not closed is reported at the
   * token where the ')' should have been.
   */
  lemma {:induction false} UnclosedGroup(toks: seq<Token>)
    requires WellFormed(toks) && 2 < |toks|
    requires toks[0].kind == LEFT_PAREN && IsAtom(toks[1]) && OpLevel(toks[2].kind).None? && toks[2].kind != RIGHT_PAREN
    ensures ParseExpression(toks, 0) == Failure(ParseError(2, "Expect ')' after expression"))
  {
    var a := Literal(AtomValue(toks[1]));
    AtomOperand(toks, 1, 0);
    LevelOfOperator(toks, 2, 0);
    LevelLoopStop(toks, 0, a, 2);
    assert ParseExpression(toks, 1) == Success(Parsed(a, 2));
    GroupPrimary(toks, 0, a, 2);
    FailureRises(toks, 0, 0);
  }
}
