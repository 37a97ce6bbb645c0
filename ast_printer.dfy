/**
 * The tree printer (src/main/java/AstPrinter.java): a Lisp-style rendering
 * in which every node but a literal is a parenthesized list of its name and
 * its children.
 */
module AstPrinting {
  import opened Values
  import opened Tokens
  import opened Syntax

  /** The children's texts as `parenthesize` appends them: a space before each. */
  function Spaced(parts: seq<string>): string {
    if parts == [] then "" else " " + parts[0] + Spaced(parts[1..])
  }

  /** `parenthesize(name, exprs...)` once the children are printed. */
  function Parenthesize(name: string, parts: seq<string>): (r: string)
    ensures StartsWith(r, "(" + name) && EndsWith(r, ")")
  {
    var r := "(" + name + Spaced(parts) + ")";
    assert r[..|name| + 1] == "(" + name;
    r
  }

  /** Appending one more child's text. */
  lemma {:induction false} SpacedSnoc(parts: seq<string>, last: string)
    ensures Spaced(parts + [last]) == Spaced(parts) + " " + last
    decreases |parts|
  {
    if parts == [] {
      assert Spaced([last][1..]) == "";
    } else {
      assert (parts + [last])[1..] == parts[1..] + [last];
      SpacedSnoc(parts[1..], last);
    }
  }

  /**
   * The loop of `parenthesize`: "(" and the name, then a space and each
   * child's text in order, then ")", appended to a builder.
   */
  method BuildParenthesized(name: string, parts: seq<string>) returns (r: string)
    ensures r == Parenthesize(name, parts)
  {
    var builder := "(" + name;
    for i := 0 to |parts|
      invariant builder == "(" + name + Spaced(parts[..i])
    {
      SpacedSnoc(parts[..i], parts[i]);
      assert parts[..i + 1] == parts[..i] + [parts[i]];
      builder := builder + " " + parts[i];
    }
    assert parts[..|parts|] == parts;
    r := builder + ")";
  }

  /** `visitLiteralExpr`: "nil" for null, else the value's `toString`. */
  function LiteralPrint(v: Value, show: NumberText): (r: string)
    ensures v == Nil ==> r == "nil"
    ensures v != Nil ==> r == ObjectText(v, show)
  {
    if v == Nil then "nil" else ObjectText(v, show)
  }

  /** `print(expr)`: operators print under their lexeme, a grouping as "group". */
  function Print(e: Expr, show: NumberText): (r: string)
    ensures !e.Literal? ==> StartsWith(r, "(") && EndsWith(r, ")")
  {
    match e
    case Binary(left, operator, right) => Parenthesize(operator.lexeme, [Print(left, show), Print(right, show)])
    case Grouping(inner) => Parenthesize("group", [Print(inner, show)])
    case Literal(v) => LiteralPrint(v, show)
    case Unary(operator, right) => Parenthesize(operator.lexeme, [Print(right, show)])
  }

  /** The number of times `c` occurs in `s`. */
  function Occurrences(s: string, c: char): nat {
    if s == [] then 0 else (if s[0] == c then 1 else 0) + Occurrences(s[1..], c)
  }

  lemma {:induction false} OccurrencesAppend(a: string, b: string, c: char)
    ensures Occurrences(a + b, c) == Occurrences(a, c) + Occurrences(b, c)
    decreases |a|
  {
    if a != [] {
      assert (a + b)[1..] == a[1..] + b;
      OccurrencesAppend(a[1..], b, c);
    } else {
      assert a + b == b;
    }
  }

  /** Whether no operator lexeme and no literal text of `e` contains a parenthesis. */
  predicate ParenFree(e: Expr, show: NumberText) {
    match e
    case Binary(left, operator, right) =>
      && '(' !in operator.lexeme && ')' !in operator.lexeme
      && ParenFree(left, show) && ParenFree(right, show)
    case Grouping(inner) => ParenFree(inner, show)
    case Literal(v) => '(' !in LiteralPrint(v, show) && ')' !in LiteralPrint(v, show)
    case Unary(operator, right) =>
      && '(' !in operator.lexeme && ')' !in operator.lexeme
      && ParenFree(right, show)
  }

  lemma {:induction false} NoOccurrences(s: string, c: char)
    requires c !in s
    ensures Occurrences(s, c) == 0
    decreases |s|
  {
    if s != [] {
      NoOccurrences(s[1..], c);
    }
  }

  /**
   * Unless a lexeme or literal text brings its own, the printed text has
   * exactly one "(" and one ")" per node that is not a literal.
   */
  lemma {:induction false} ParenthesesPerNode(e: Expr, show: NumberText)
    requires ParenFree(e, show)
    ensures Occurrences(Print(e, show), '(') == Interior(e)
    ensures Occurrences(Print(e, show), ')') == Interior(e)
  {
    match e
    case Literal(v) =>
      NoOccurrences(LiteralPrint(v, show), '(');
      NoOccurrences(LiteralPrint(v, show), ')');
    case Grouping(inner) =>
      ParenthesesPerNode(inner, show);
      SingleChild("group", Print(inner, show));
    case Unary(operator, right) =>
      ParenthesesPerNode(right, show);
      SingleChild(operator.lexeme, Print(right, show));
    case Binary(left, operator, right) =>
      ParenthesesPerNode(left, show);
      ParenthesesPerNode(right, show);
      TwoChildren(operator.lexeme, Print(left, show), Print(right, show));
  }

  /** The parentheses of a one-child node: its own pair plus the child's. */
  lemma SingleChild(name: string, child: string)
    requires '(' !in name && ')' !in name
    ensures Occurrences(Parenthesize(name, [child]), '(') == 1 + Occurrences(child, '(')
    ensures Occurrences(Parenthesize(name, [child]), ')') == 1 + Occurrences(child, ')')
  {
    assert Spaced([child]) == " " + child + Spaced([]);
    assert Parenthesize(name, [child]) == "(" + name + " " + child + ")";
    forall c | c == '(' || c == ')'
      ensures Occurrences(Parenthesize(name, [child]), c) == 1 + Occurrences(child, c)
    {
      NoOccurrences(name, c);
      OccurrencesAppend("(", name, c);
      OccurrencesAppend("(" + name, " ", c);
      OccurrencesAppend("(" + name + " ", child, c);
      OccurrencesAppend("(" + name + " " + child, ")", c);
    }
  }

  /** The parentheses of a two-child node: its own pair plus both children's. */
  lemma TwoChildren(name: string, first: string, second: string)
    requires '(' !in name && ')' !in name
    ensures Occurrences(Parenthesize(name, [first, second]), '(') == 1 + Occurrences(first, '(') + Occurrences(second, '(')
    ensures Occurrences(Parenthesize(name, [first, second]), ')') == 1 + Occurrences(first, ')') + Occurrences(second, ')')
  {
    assert [first, second][1..] == [second];
    assert Spaced([second]) == " " + second + Spaced([]);
    assert Parenthesize(name, [first, second]) == "(" + name + " " + first + " " + second + ")";
    forall c | c == '(' || c == ')'
      ensures Occurrences(Parenthesize(name, [first, second]), c) == 1 + Occurrences(first, c) + Occurrences(second, c)
    {
      NoOccurrences(name, c);
      OccurrencesAppend("(", name, c);
      OccurrencesAppend("(" + name, " ", c);
      OccurrencesAppend("(" + name + " ", first, c);
      OccurrencesAppend("(" + name + " " + first, " ", c);
      OccurrencesAppend("(" + name + " " + first + " ", second, c);
      OccurrencesAppend("(" + name + " " + first + " " + second, ")", c);
    }
  }

  /** A Binary node prints as its lexeme and its two children's texts, spaced, in parentheses. */
  lemma PrintBinary(e: Expr, left: string, right: string, show: NumberText)
    requires e.Binary? && Print(e.left, show) == left && Print(e.right, show) == right
    ensures Print(e, show) == "(" + e.operator.lexeme + " " + left + " " + right + ")"
  {
    assert [left, right][1..] == [right];
    assert Spaced([right]) == " " + right + Spaced([]);
  }

  /** A Grouping prints as "(group " and its child's text and ")". */
  lemma PrintGrouping(e: Expr, inner: string, show: NumberText)
    requires e.Grouping? && Print(e.expression, show) == inner
    ensures Print(e, show) == "(group " + inner + ")"
  {
    assert Spaced([inner]) == " " + inner + Spaced([]);
  }

  /** A Unary node prints as its lexeme and its operand's text in parentheses. */
  lemma PrintUnary(e: Expr, right: string, show: NumberText)
    requires e.Unary? && Print(e.right, show) == right
    ensures Print(e, show) == "(" + e.operator.lexeme + " " + right + ")"
  {
    assert Spaced([right]) == " " + right + Spaced([]);
  }

  /** The texts the first example is assembled from. */
  lemma FirstExampleTexts()
    ensures "(" + "-" + " " + "123" + ")" == "(- 123)"
    ensures "(group " + "45.67" + ")" == "(group 45.67)"
    ensures "(" + "*" + " " + "(- 123)" + " " + "(group 45.67)" + ")" == "(* (- 123) (group 45.67))"
  {
  }

  /** The first tree of `main`, `-123 * (45.67)`, prints as "(* (- 123) (group 45.67))". */
  lemma FirstExample(show: NumberText)
    requires show(123.0) == "123" && show(45.67) == "45.67"
    ensures Print(Binary(Unary(Token(MINUS, "-", Nil, 1), Literal(Num(123.0))),
                         Token(STAR, "*", Nil, 1),
                         Grouping(Literal(Num(45.67)))), show)
      == "(* (- 123) (group 45.67))"
  {
    var minus := Unary(Token(MINUS, "-", Nil, 1), Literal(Num(123.0)));
    var group := Grouping(Literal(Num(45.67)));
    FirstExampleTexts();
    PrintUnary(minus, "123", show);
    PrintGrouping(group, "45.67", show);
    PrintBinary(Binary(minus, Token(STAR, "*", Nil, 1), group), "(- 123)", "(group 45.67)", show);
  }

  /** The texts of the inner nodes of the second example. */
  lemma SecondExampleInnerTexts()
    ensures "(" + ">=" + " " + "1" + " " + "2" + ")" == "(>= 1 2)"
    ensures "(group " + "(>= 1 2)" + ")" == "(group (>= 1 2))"
    ensures "(" + "*" + " " + "0" + " " + "2" + ")" == "(* 0 2)"
    ensures "(group " + "(* 0 2)" + ")" == "(group (* 0 2))"
  {
  }

  /** The texts of the right operand of the second example. */
  lemma SecondExampleSumTexts()
    ensures "(" + "+" + " " + "1" + " " + "(group (* 0 2))" + ")" == "(+ 1 (group (* 0 2)))"
    ensures "(group " + "(+ 1 (group (* 0 2)))" + ")" == "(group (+ 1 (group (* 0 2))))"
  {
  }

  /** The outer node of the second example up to its left operand. */
  lemma SecondExampleHeadText()
    ensures "(" + "*" + " " + "(group (>= 1 2))" == "(* (group (>= 1 2))"
  {
  }

  /** The outer node of the second example up to its closing parenthesis. */
  lemma SecondExampleBodyText()
    ensures "(* (group (>= 1 2))" + " " + "(group (+ 1 (group (* 0 2))))" == "(* (group (>= 1 2)) (group (+ 1 (group (* 0 2))))"
  {
  }

  /** The text of the whole second example. */
  lemma SecondExampleText()
    ensures "(" + "*" + " " + "(group (>= 1 2))" + " " + "(group (+ 1 (group (* 0 2))))" + ")"
      == "(* (group (>= 1 2)) (group (+ 1 (group (* 0 2)))))"
  {
    SecondExampleHeadText();
    SecondExampleBodyText();
  }

  /** The second tree of `main` prints as "(* (group (>= 1 2)) (group (+ 1 (group (* 0 2)))))". */
  lemma SecondExample(show: NumberText)
    requires show(0.0) == "0" && show(1.0) == "1" && show(2.0) == "2"
    ensures Print(Binary(Grouping(Binary(Literal(Num(1.0)), Token(GREATER_EQUAL, ">=", Nil, 1), Literal(Num(2.0)))),
                         Token(STAR, "*", Nil, 1),
                         Grouping(Binary(Literal(Num(1.0)), Token(PLUS, "+", Nil, 1),
                                         Grouping(Binary(Literal(Num(0.0)), Token(STAR, "*", Nil, 1), Literal(Num(2.0))))))), show)
      == "(* (group (>= 1 2)) (group (+ 1 (group (* 0 2)))))"
  {
    var star := Token(STAR, "*", Nil, 1);
    var compare := Binary(Literal(Num(1.0)), Token(GREATER_EQUAL, ">=", Nil, 1), Literal(Num(2.0)));
    var product := Binary(Literal(Num(0.0)), star, Literal(Num(2.0)));
    var sum := Binary(Literal(Num(1.0)), Token(PLUS, "+", Nil, 1), Grouping(product));
    SecondExampleInnerTexts();
    SecondExampleSumTexts();
    SecondExampleText();
    PrintBinary(compare, "1", "2", show);
    PrintGrouping(Grouping(compare), "(>= 1 2)", show);
    PrintBinary(product, "0", "2", show);
    PrintGrouping(Grouping(product), "(* 0 2)", show);
    PrintBinary(sum, "1", "(group (* 0 2))", show);
    PrintGrouping(Grouping(sum), "(+ 1 (group (* 0 2)))", show);
    PrintBinary(Binary(Grouping(compare), star, Grouping(sum)), "(group (>= 1 2))", "(group (+ 1 (group (* 0 2))))", show);
  }
}
