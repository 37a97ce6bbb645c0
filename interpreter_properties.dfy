/**
 * What src/main/java/Interpreter.java promises about values, operators and
 * statement runs: the type checks of each operator, the order in which `/`
 * inspects its operands, which operand's error wins, and that a run stops
 * at its first fault with the earlier effects kept.
 */
module EvaluationProperties {
  import opened Wrappers
  import opened Values
  import opened Tokens
  import opened Syntax
  import opened Evaluation

  /** `==` and `!=` never raise, and `!=` is always the negation of `==`. */
  lemma EqualityNeverFails(ne: Token, eq: Token, a: Value, b: Value, show: NumberText)
    requires ne.kind == BANG_EQUAL && eq.kind == EQUAL_EQUAL
    ensures BinaryOp(eq, a, b, show) == Success(Bool(a == b))
    ensures BinaryOp(ne, a, b, show) == Success(Bool(!BinaryOp(eq, a, b, show).value.b))
  {
  }

  /** `>`, `>=`, `<`, `<=` and binary `-` raise "Operands must be numbers." unless both operands are numbers. */
  lemma NumericOperators(op: Token, a: Value, b: Value, show: NumberText)
    requires op.kind in {GREATER, GREATER_EQUAL, LESS, LESS_EQUAL, MINUS}
    ensures BinaryOp(op, a, b, show).Success? <==> a.Num? && b.Num?
    ensures BinaryOp(op, a, b, show).Failure? ==> BinaryOp(op, a, b, show).error == RuntimeError(op, "Operands must be numbers.")
    ensures a.Num? && b.Num? && op.kind == GREATER ==> BinaryOp(op, a, b, show).value == Bool(a.n > b.n)
    ensures a.Num? && b.Num? && op.kind == GREATER_EQUAL ==> BinaryOp(op, a, b, show).value == Bool(a.n >= b.n)
    ensures a.Num? && b.Num? && op.kind == LESS ==> BinaryOp(op, a, b, show).value == Bool(a.n < b.n)
    ensures a.Num? && b.Num? && op.kind == LESS_EQUAL ==> BinaryOp(op, a, b, show).value == Bool(a.n <= b.n)
    ensures a.Num? && b.Num? && op.kind == MINUS ==> BinaryOp(op, a, b, show).value == Num(a.n - b.n)
  {
  }

  /**
   * `+` adds two numbers, concatenates two strings, concatenates the texts
   * of a number and a string in either order, and raises on anything else.
   */
  lemma PlusOverloads(op: Token, a: Value, b: Value, show: NumberText)
    requires op.kind == PLUS
    ensures var r := BinaryOp(op, a, b, show);
      && (r.Success? <==> (a.Num? || a.Str?) && (b.Num? || b.Str?))
      && (a.Num? && b.Num? ==> r == Success(Num(a.n + b.n)))
      && (a.Str? && b.Str? ==> r == Success(Str(a.s + b.s)))
      && (a.Num? != b.Num? && r.Success? ==> r == Success(Str(Stringify(a, show) + Stringify(b, show))))
      && (r.Failure? ==> r.error == RuntimeError(op, "Operands must be numbers or strings."))
  {
  }

  /**
   * `/` casts the right operand first, then rejects a zero divisor before
   * it looks at the left operand; a non-number operand is a cast failure,
   * never a RuntimeError about types.
   */
  lemma DivisionOrder(op: Token, a: Value, b: Value, show: NumberText)
    requires op.kind == SLASH
    ensures !b.Num? ==> BinaryOp(op, a, b, show) == Failure(CastError(op, b))
    ensures b == Num(0.0) ==> BinaryOp(op, a, b, show) == Failure(RuntimeError(op, "Cannot divide by zero."))
    ensures b.Num? && b.n != 0.0 && !a.Num? ==> BinaryOp(op, a, b, show) == Failure(CastError(op, a))
    ensures a.Num? && b.Num? && b.n != 0.0 ==> BinaryOp(op, a, b, show) == Success(Num(a.n / b.n))
  {
  }

  /** `*` casts left, then right, and never checks their types. */
  lemma MultiplicationCasts(op: Token, a: Value, b: Value, show: NumberText)
    requires op.kind == STAR
    ensures !a.Num? ==> BinaryOp(op, a, b, show) == Failure(CastError(op, a))
    ensures a.Num? && !b.Num? ==> BinaryOp(op, a, b, show) == Failure(CastError(op, b))
    ensures a.Num? && b.Num? ==> BinaryOp(op, a, b, show) == Success(Num(a.n * b.n))
  {
    if a.Num? && b.Num? {
      var (x, y) := (Cast(op, a).value, Cast(op, b).value);
      assert x == a.n && y == b.n;
      assert BinaryOp(op, a, b, show).Success? && BinaryOp(op, a, b, show).value.Num?;
      assert BinaryOp(op, a, b, show).value.n == x * y == a.n * b.n;
    }
  }

  /** `!` never raises and negates truthiness; unary `-` negates a number and raises on anything else. */
  lemma UnaryOperators(bang: Token, minus: Token, v: Value)
    requires bang.kind == BANG && minus.kind == MINUS
    ensures UnaryOp(bang, v) == Success(Bool(!IsTruthy(v)))
    ensures v.Num? ==> UnaryOp(minus, v) == Success(Num(-v.n))
    ensures !v.Num? ==> UnaryOp(minus, v) == Failure(RuntimeError(minus, "Operand must be a number"))
  {
  }

  /** `!!v` is the truthiness of `v`, and `--n` is `n`. */
  lemma DoublePrefix(bang: Token, minus: Token, v: Value, n: real, show: NumberText)
    requires bang.kind == BANG && minus.kind == MINUS
    ensures Evaluate(Unary(bang, Unary(bang, Literal(v))), show) == Success(Bool(IsTruthy(v)))
    ensures Evaluate(Unary(minus, Unary(minus, Literal(Num(n)))), show) == Success(Num(n))
  {
    assert Evaluate(Unary(bang, Literal(v)), show) == Success(Bool(!IsTruthy(v)));
    assert Evaluate(Unary(minus, Literal(Num(n))), show) == Success(Num(-n));
  }

  /**
   * Both operands are evaluated, left then right, before the operator
   * looks at them: a fault in the left operand wins over one in the right,
   * which wins over the operator's own.
   */
  lemma OperandFaultsFirst(left: Expr, op: Token, right: Expr, show: NumberText)
    ensures Evaluate(left, show).Failure? ==>
      Evaluate(Binary(left, op, right), show) == Failure(Evaluate(left, show).error)
    ensures Evaluate(left, show).Success? && Evaluate(right, show).Failure? ==>
      Evaluate(Binary(left, op, right), show) == Failure(Evaluate(right, show).error)
    ensures Evaluate(left, show).Success? && Evaluate(right, show).Success? ==>
      Evaluate(Binary(left, op, right), show) == BinaryOp(op, Evaluate(left, show).value, Evaluate(right, show).value, show)
  {
  }

  /**
   * A run of one statement is that statement's execution: `print e` appends
   * the text of e's value, `var x = e` binds x to e's value, and a fault in
   * e stops the run with the state unchanged.
   */
  lemma StatementEffects(st: State, name: Token, e: Expr, show: NumberText)
    ensures Evaluate(e, show).Success? ==>
      Run(st, [PrintStmt(e)], show) == (st.(output := st.output + [Stringify(Evaluate(e, show).value, show)]), None)
    ensures Evaluate(e, show).Success? ==>
      Run(st, [VarStmt(name, Some(e))], show) == (st.(environment := st.environment[name.lexeme := Evaluate(e, show).value]), None)
    ensures Run(st, [VarStmt(name, None)], show) == (st.(environment := st.environment[name.lexeme := Nil]), None)
    ensures Evaluate(e, show).Failure? ==>
      && Run(st, [PrintStmt(e)], show) == (st, Some(Evaluate(e, show).error))
      && Run(st, [VarStmt(name, Some(e))], show) == (st, Some(Evaluate(e, show).error))
      && Run(st, [ExpressionStmt(e)], show) == (st, Some(Evaluate(e, show).error))
  {
    assert [PrintStmt(e)][1..] == [];
    assert [VarStmt(name, Some(e))][1..] == [];
    assert [VarStmt(name, None)][1..] == [];
  }

  /** Running `a + b` runs `a`, and runs `b` from where `a` ended only when `a` met no fault. */
  lemma {:induction false} RunAppend(st: State, a: seq<Stmt>, b: seq<Stmt>, show: NumberText)
    ensures Run(st, a + b, show) == if Run(st, a, show).1.Some? then Run(st, a, show) else Run(Run(st, a, show).0, b, show)
    decreases |a|
  {
    if a == [] {
      assert a + b == b;
    } else {
      assert (a + b)[0] == a[0];
      assert (a + b)[1..] == a[1..] + b;
      match Execute(st, a[0], show)
      case Failure(_) =>
      case Success(next) => RunAppend(next, a[1..], b, show);
    }
  }

  /**
   * A run stops at the first statement that faults: the state is the one
   * the statements before it left, and no later statement runs.
   */
  lemma StopsAtFirstFault(st: State, before: seq<Stmt>, failing: Stmt, after: seq<Stmt>, show: NumberText)
    requires Run(st, before, show).1.None?
    requires Execute(Run(st, before, show).0, failing, show).Failure?
    ensures Run(st, before + [failing] + after, show)
      == (Run(st, before, show).0, Some(Execute(Run(st, before, show).0, failing, show).error))
  {
    RunAppend(st, before, [failing] + after, show);
    assert before + [failing] + after == before + ([failing] + after);
  }

  /** Declaring a name again overwrites the earlier binding. */
  lemma RedeclarationOverwrites(st: State, first: Token, second: Token, v: Value, w: Value, show: NumberText)
    requires first.lexeme == second.lexeme
    ensures var r := Run(st, [VarStmt(first, Some(Literal(v))), VarStmt(second, Some(Literal(w)))], show);
      r.1 == None && r.0.environment == st.environment[first.lexeme := w]
  {
    var s := [VarStmt(first, Some(Literal(v))), VarStmt(second, Some(Literal(w)))];
    var mid := st.(environment := st.environment[first.lexeme := v]);
    var end := mid.(environment := mid.environment[second.lexeme := w]);
    assert Execute(st, s[0], show) == Success(mid);
    assert Execute(mid, s[1], show) == Success(end);
    assert s[1..][1..] == [];
    assert Run(mid, s[1..], show) == Run(end, [], show);
    assert st.environment[first.lexeme := v][second.lexeme := w] == st.environment[first.lexeme := w];
  }
}
