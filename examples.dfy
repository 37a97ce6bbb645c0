/**
 * The source "1 + 2 * 3" taken through the stages src/main/java/Cynch.java
 * chains together after scanning (`ScanningExamples.ScanSum`): parsed as
 * one expression, printed by the tree printer and evaluated.
 */
module Examples {
  import opened Wrappers
  import opened Values
  import opened Tokens
  import opened Syntax
  import opened ScanningExamples
  import opened Parsing
  import opened ParsingProperties
  import opened Evaluation
  import opened AstPrinting

  /** The tree of "1 + 2 * 3": the product binds tighter than the sum. */
  function SumTree(): Expr {
    var t := SumTokens();
    Binary(Literal(Num(1.0)), t[1], Binary(Literal(Num(2.0)), t[3], Literal(Num(3.0))))
  }

  /** "1 + 2 * 3" parses as `1 + (2 * 3)`. */
  lemma ParseSum()
    ensures WellFormed(SumTokens()) && Parse(SumTokens()) == Some(SumTree())
  {
    var t := SumTokens();
    assert ThreeOperands(t);
    Precedence(t);
  }

  lemma SumTexts()
    ensures "(" + "*" + " " + "2.0" + " " + "3.0" + ")" == "(* 2.0 3.0)"
    ensures "(" + "+" + " " + "1.0" + " " + "(* 2.0 3.0)" + ")" == "(+ 1.0 (* 2.0 3.0))"
  {
  }

  /**
   * The tree of "1 + 2 * 3" prints as "(+ 1.0 (* 2.0 3.0))": the scanned
   * literals are doubles, which `Double.toString` writes with a ".0".
   */
  lemma PrintSum(show: NumberText)
    requires show(1.0) == "1.0" && show(2.0) == "2.0" && show(3.0) == "3.0"
    ensures Print(SumTree(), show) == "(+ 1.0 (* 2.0 3.0))"
  {
    var e := SumTree();
    SumTexts();
    PrintBinary(e.right, "2.0", "3.0", show);
    PrintBinary(e, "1.0", "(* 2.0 3.0)", show);
  }

  /**
   * `print 1 + 2 * 3;` writes "7": the product is taken first, and
   * stringify drops the ".0" that `Double.toString` puts after 7.
   */
  lemma RunSum(st: State, show: NumberText)
    requires show(7.0) == "7.0"
    ensures Evaluate(SumTree(), show) == Success(Num(7.0))
    ensures Run(st, [PrintStmt(SumTree())], show) == (st.(output := st.output + ["7"]), None)
  {
    var e := SumTree();
    assert Evaluate(e.right, show) == Success(Num(6.0));
    assert EndsWith("7.0", ".0") && "7.0"[..1] == "7";
    assert Stringify(Num(7.0), show) == "7";
    assert [PrintStmt(e)][1..] == [];
  }
}
