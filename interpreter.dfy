/**
 * The evaluator (src/main/java/Interpreter.java). The `visit*Expr` methods
 * are pure and become `Evaluate`; what a thrown exception does becomes a
 * `Failure` carrying a `Fault`. The statement visitors and `interpret`
 * change the interpreter's environment and the printed output, so they are
 * methods of the class `Interpreter`, proved against `Execute` and `Run`.
 */
module Evaluation {
  import opened Wrappers
  import opened Values
  import opened Tokens
  import opened Reports
  import opened Syntax

  /**
   * What evaluation can throw. `RuntimeError` is the interpreter's own
   * exception, which `interpret` catches. `CastError` is the
   * `ClassCastException` (or, for nil, `NullPointerException`) of an
   * unchecked `(double)` cast in `/` or `*`, with the value that failed it;
   * nothing in the interpreter catches it.
   */
  datatype Fault =
    | RuntimeError(token: Token, message: string)
    | CastError(token: Token, operand: Value)

  /** The messages of the runtime errors the evaluator throws. */
  predicate RuntimeMessage(m: string) {
    || m == "Operand must be a number"
    || m == "Operands must be numbers."
    || m == "Operands must be numbers or strings."
    || m == "Cannot divide by zero."
  }

  /** `isTruthy`: only nil and false are falsey; 0 and "" are truthy. */
  function IsTruthy(v: Value): (r: bool)
    ensures r <==> v != Nil && v != Bool(false)
  {
    if v.Nil? then false
    else if v.Bool? then v.b
    else true
  }

  /** `Object.equals` on a Boolean, Double or String: same class and same value. */
  function JavaEquals(a: Value, b: Value): (r: bool)
    requires a != Nil
    ensures r <==> a == b
  {
    match a
    case Bool(x) => b.Bool? && b.b == x
    case Num(x) => b.Num? && b.n == x
    case Str(x) => b.Str? && b.s == x
  }

  /** `isEqual`: nil equals only nil, values of different types are unequal, otherwise by value. */
  function IsEqual(a: Value, b: Value): (r: bool)
    ensures r <==> a == b
  {
    if a.Nil? && b.Nil? then true
    else if a.Nil? then false
    else JavaEquals(a, b)
  }

  /**
   * `stringify`: "nil" for nil; for a number, its text without a trailing
   * ".0"; otherwise the value's own text.
   */
  function Stringify(v: Value, show: NumberText): (r: string)
    ensures v.Nil? ==> r == "nil"
    ensures v.Num? && EndsWith(show(v.n), ".0") ==> r + ".0" == show(v.n)
    ensures v.Num? && !EndsWith(show(v.n), ".0") ==> r == show(v.n)
    ensures v.Bool? || v.Str? ==> r == ObjectText(v, show)
  {
    match v
    case Nil => "nil"
    case Num(n) =>
      var text := show(n);
      if EndsWith(text, ".0") then
        var r := text[..|text| - 2];
        assert r + ".0" == text;
        r
      else text
    case _ => ObjectText(v, show)
  }

  /** `checkNumberOperand`, with the number it lets through. */
  function CheckNumberOperand(operator: Token, operand: Value): (r: Result<real, Fault>)
    ensures r.Success? <==> operand.Num?
    ensures r.Success? ==> r.value == operand.n
    ensures r.Failure? ==> r.error == RuntimeError(operator, "Operand must be a number")
  {
    if operand.Num? then Success(operand.n)
    else Failure(RuntimeError(operator, "Operand must be a number"))
  }

  /** `checkNumberOperands`, with the two numbers it lets through. */
  function CheckNumberOperands(operator: Token, left: Value, right: Value): (r: Result<(real, real), Fault>)
    ensures r.Success? <==> left.Num? && right.Num?
    ensures r.Success? ==> r.value == (left.n, right.n)
    ensures r.Failure? ==> r.error == RuntimeError(operator, "Operands must be numbers.")
  {
    if left.Num? && right.Num? then Success((left.n, right.n))
    else Failure(RuntimeError(operator, "Operands must be numbers."))
  }

  /** The unchecked cast `(double)operand`. */
  function Cast(operator: Token, operand: Value): (r: Result<real, Fault>)
    ensures r.Success? <==> operand.Num?
    ensures r.Success? ==> r.value == operand.n
    ensures r.Failure? ==> r.error == CastError(operator, operand)
  {
    if operand.Num? then Success(operand.n) else Failure(CastError(operator, operand))
  }

  /**
   * Whether `f` is a fault an operator token can throw: at that token, a
   * cast only in `/` and `*`, a runtime error only with one of the
   * interpreter's messages.
   */
  predicate FaultAt(f: Fault, operator: Token) {
    && f.token == operator
    && (f.CastError? ==> operator.kind == SLASH || operator.kind == STAR)
    && (f.RuntimeError? ==> RuntimeMessage(f.message))
  }

  /**
   * The values a binary operator can produce: booleans from equality and
   * comparison, numbers from arithmetic, a number or a string from `+`, and
   * null from any other token.
   */
  predicate ResultKind(kind: TokenType, v: Value) {
    match kind
    case BANG_EQUAL | EQUAL_EQUAL | GREATER | GREATER_EQUAL | LESS | LESS_EQUAL => v.Bool?
    case MINUS | SLASH | STAR => v.Num?
    case PLUS => v.Num? || v.Str?
    case _ => v.Nil?
  }

  /** `visitUnaryExpr` after its operand is evaluated; an operator other than `!` and `-` gives null. */
  function UnaryOp(operator: Token, right: Value): (r: Result<Value, Fault>)
    ensures r.Failure? ==> FaultAt(r.error, operator)
    ensures r.Success? && operator.kind == BANG ==> r.value.Bool?
    ensures r.Success? && operator.kind == MINUS ==> r.value.Num?
    ensures r.Success? && operator.kind != BANG && operator.kind != MINUS ==> r.value == Nil
  {
    match operator.kind
    case BANG => Success(Bool(!IsTruthy(right)))
    case MINUS =>
      var n :- CheckNumberOperand(operator, right);
      Success(Num(-n))
    case _ => Success(Nil)
  }

  /**
   * `visitBinaryExpr` after both operands are evaluated. `/` casts its
   * right operand and checks it for zero before it casts the left one; `*`
   * casts left, then right; neither checks the operand types.
   */
  function BinaryOp(operator: Token, left: Value, right: Value, show: NumberText): (r: Result<Value, Fault>)
    ensures r.Failure? ==> FaultAt(r.error, operator)
    ensures r.Success? ==> ResultKind(operator.kind, r.value)
  {
    match operator.kind
    case BANG_EQUAL => Success(Bool(!IsEqual(left, right)))
    case EQUAL_EQUAL => Success(Bool(IsEqual(left, right)))
    case GREATER =>
      var (x, y) :- CheckNumberOperands(operator, left, right);
      Success(Bool(x > y))
    case GREATER_EQUAL =>
      var (x, y) :- CheckNumberOperands(operator, left, right);
      Success(Bool(x >= y))
    case LESS =>
      var (x, y) :- CheckNumberOperands(operator, left, right);
      Success(Bool(x < y))
    case LESS_EQUAL =>
      var (x, y) :- CheckNumberOperands(operator, left, right);
      Success(Bool(x <= y))
    case MINUS =>
      var (x, y) :- CheckNumberOperands(operator, left, right);
      Success(Num(x - y))
    case PLUS =>
      if left.Num? && right.Num? then Success(Num(left.n + right.n))
      else if left.Str? && right.Str? then Success(Str(left.s + right.s))
      else if (left.Num? && right.Str?) || (left.Str? && right.Num?) then
        Success(Str(Stringify(left, show) + Stringify(right, show)))
      else Failure(RuntimeError(operator, "Operands must be numbers or strings."))
    case SLASH =>
      var y :- Cast(operator, right);
      if y == 0.0 then Failure(RuntimeError(operator, "Cannot divide by zero."))
      else
        var x :- Cast(operator, left);
        Success(Num(x / y))
    case STAR =>
      var x :- Cast(operator, left);
      var y :- Cast(operator, right);
      Success(Num(x * y))
    case _ => Success(Nil)
  }

  /**
   * `evaluate`: both operands of a Binary are evaluated, left then right,
   * before the operator looks at them. Every fault is thrown by an
   * operator of the tree.
   */
  function Evaluate(e: Expr, show: NumberText): (r: Result<Value, Fault>)
    ensures r.Failure? ==> r.error.token in OperatorTokens(e) && FaultAt(r.error, r.error.token)
  {
    match e
    case Literal(v) => Success(v)
    case Grouping(inner) => Evaluate(inner, show)
    case Unary(operator, right) =>
      var v :- Evaluate(right, show);
      UnaryOp(operator, v)
    case Binary(left, operator, right) =>
      var a :- Evaluate(left, show);
      var b :- Evaluate(right, show);
      BinaryOp(operator, a, b, show)
  }

  /** The interpreter's state: the global environment and the lines printed so far. */
  datatype State = State(environment: map<string, Value>, output: seq<string>)

  /**
   * `execute(stmt)`: an expression statement only evaluates, `print`
   * appends the stringified value as one line, `var` binds the name to the
   * initializer's value (nil without one), overwriting any earlier binding.
   * A fault in the expression is the statement's fault, and then nothing
   * changes.
   */
  function Execute(st: State, stmt: Stmt, show: NumberText): (r: Result<State, Fault>)
    ensures !stmt.VarStmt? ==> r.Failure? == Evaluate(stmt.expression, show).Failure?
    ensures !stmt.VarStmt? && r.Failure? ==> r.error == Evaluate(stmt.expression, show).error
    ensures r.Success? && stmt.ExpressionStmt? ==> r.value == st
    ensures r.Success? && stmt.PrintStmt? ==>
      r.value.environment == st.environment
      && r.value.output == st.output + [Stringify(Evaluate(stmt.expression, show).value, show)]
    ensures stmt.VarStmt? ==> r.Failure? == (stmt.initializer.Some? && Evaluate(stmt.initializer.value, show).Failure?)
    ensures stmt.VarStmt? && r.Failure? ==> r.error == Evaluate(stmt.initializer.value, show).error
    ensures r.Success? && stmt.VarStmt? ==>
      r.value.output == st.output && stmt.name.lexeme in r.value.environment
      && r.value.environment[stmt.name.lexeme] == (if stmt.initializer.None? then Nil else Evaluate(stmt.initializer.value, show).value)
      && forall x :: x in st.environment && x != stmt.name.lexeme ==> x in r.value.environment && r.value.environment[x] == st.environment[x]
  {
    match stmt
    case ExpressionStmt(e) =>
      var _ :- Evaluate(e, show);
      Success(st)
    case PrintStmt(e) =>
      var v :- Evaluate(e, show);
      Success(st.(output := st.output + [Stringify(v, show)]))
    case VarStmt(name, initializer) =>
      var v :- if initializer.None? then Success(Nil) else Evaluate(initializer.value, show);
      Success(st.(environment := st.environment[name.lexeme := v]))
  }

  /**
   * The statements run in order from `st` until the first fault: the state
   * reached, and the fault that stopped the run, if any.
   */
  function Run(st: State, statements: seq<Stmt>, show: NumberText): (r: (State, Option<Fault>))
    ensures |st.output| <= |r.0.output| && r.0.output[..|st.output|] == st.output
    decreases |statements|
  {
    if statements == [] then (st, None)
    else
      match Execute(st, statements[0], show)
      case Failure(f) => (st, Some(f))
      case Success(next) =>
        var r := Run(next, statements[1..], show);
        assert r.0.output[..|st.output|] == next.output[..|next.output|][..|st.output|];
        r
  }

  /**
   * The Java `Interpreter` object: its environment, the lines its `print`
   * statements wrote and the runtime errors it handed to
   * `Cynch.runtimeError`. `Double.toString` is the `show` it was built with.
   */
  class Interpreter {
    const show: NumberText
    var environment: map<string, Value>
    var output: seq<string>
    var runtimeErrors: seq<RuntimeReport>

    constructor (show: NumberText)
      ensures this.show == show && environment == map[] && output == [] && runtimeErrors == []
    {
      this.show := show;
      environment := map[];
      output := [];
      runtimeErrors := [];
    }

    /** The environment and output as a `State`. */
    function Current(): State
      reads this
    {
      State(environment, output)
    }

    /**
     * `interpret(statements)`: runs them in order and stops at the first
     * fault. A `RuntimeError` is reported once, with its operator's line,
     * and swallowed; a cast failure escapes, returned as `escaped`. The
     * effects of the statements before the fault remain.
     */
    method Interpret(statements: seq<Stmt>) returns (escaped: Option<Fault>)
      modifies this`environment, this`output, this`runtimeErrors
      ensures var (reached, fault) := Run(old(Current()), statements, show);
        && Current() == reached
        && (fault.None? ==> escaped == None && runtimeErrors == old(runtimeErrors))
        && (fault.Some? && fault.value.RuntimeError? ==>
              && escaped == None
              && runtimeErrors == old(runtimeErrors) + [RuntimeReport(fault.value.token.line, fault.value.message)])
        && (fault.Some? && fault.value.CastError? ==> escaped == fault && runtimeErrors == old(runtimeErrors))
    {
      for i := 0 to |statements|
        invariant Run(old(Current()), statements, show) == Run(Current(), statements[i..], show)
        invariant runtimeErrors == old(runtimeErrors)
      {
        assert statements[i..][1..] == statements[i + 1..];
        var fault := ExecuteStatement(statements[i]);
        if fault.Some? {
          if fault.value.RuntimeError? {
            runtimeErrors := runtimeErrors + [RuntimeReport(fault.value.token.line, fault.value.message)];
            return None;
          }
          return fault;
        }
      }
      return None;
    }

    /** `execute(stmt)` through `visitExpressionStmt`, `visitPrintStmt` or `visitVarStmt`. */
    method ExecuteStatement(stmt: Stmt) returns (fault: Option<Fault>)
      modifies this`environment, this`output
      ensures match Execute(old(Current()), stmt, show)
        case Success(next) => fault == None && Current() == next
        case Failure(f) => fault == Some(f) && Current() == old(Current())
    {
      fault := None;
      match stmt {
      case ExpressionStmt(e) =>
        var v := Evaluate(e, show);
        if v.Failure? {
          return Some(v.error);
        }
      case PrintStmt(e) =>
        var v := Evaluate(e, show);
        if v.Failure? {
          return Some(v.error);
        }
        output := output + [Stringify(v.value, show)];
      case VarStmt(name, initializer) =>
        var value := Nil;
        if initializer.Some? {
          var v := Evaluate(initializer.value, show);
          if v.Failure? {
            return Some(v.error);
          }
          value := v.value;
        }
        environment := environment[name.lexeme := value];
      }
    }
  }
}
