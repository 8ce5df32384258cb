/**
 * Worked inputs of the calculator, each read off a general lemma of
 * `SimpleCalculatorProperties`: the tree `parse()` builds or the error it
 * stops with.
 */
module SimpleCalculatorExamples {
  import opened Text
  import opened Wrappers
  import opened SimpleCalculator
  import opened SimpleCalculatorProperties

  /** A run of decimal digits is a well-formed number token and prints as itself. */
  lemma DigitsToken(t: string)
    requires |t| > 0 && forall m :: 0 <= m < |t| ==> IsDigit(t[m])
    ensures WellFormed(Num(t)) && Print(Num(t)) == t
  {
    DigitsDotless(t);
    assert IsDigit(t[0]);
  }

  /** "3+5*2" is 3 + (5 * 2). */
  lemma ProductBeforeSum()
    ensures ParseAll("3+5*2") == Ok(Add(Num("3"), Mul(Num("5"), Num("2"))))
  {
    DigitsToken("3");
    DigitsToken("5");
    DigitsToken("2");
    ProductBindsTighter(Num("3"), '+', Num("5"), '*', Num("2"));
    assert "3" + ['+'] + "5" + ['*'] + "2" == "3+5*2";
  }

  /** "10-4-3" is (10 - 4) - 3. */
  lemma DifferencesFromTheLeft()
    ensures ParseAll("10-4-3") == Ok(Sub(Sub(Num("10"), Num("4")), Num("3")))
  {
    DigitsToken("10");
    DigitsToken("4");
    DigitsToken("3");
    SumsGroupLeft(Num("10"), '-', Num("4"), '-', Num("3"));
    assert "10" + ['-'] + "4" + ['-'] + "3" == "10-4-3";
  }

  /** "8/4/2" is (8 / 4) / 2. */
  lemma QuotientsFromTheLeft()
    ensures ParseAll("8/4/2") == Ok(Div(Div(Num("8"), Num("4")), Num("2")))
  {
    DigitsToken("8");
    DigitsToken("4");
    DigitsToken("2");
    ProductsGroupLeft(Num("8"), '/', Num("4"), '/', Num("2"));
    assert "8" + ['/'] + "4" + ['/'] + "2" == "8/4/2";
  }

  /** "2^3^2" is 2^(3^2). */
  lemma PowerTower()
    ensures ParseAll("2^3^2") == Ok(Pow(Num("2"), Pow(Num("3"), Num("2"))))
  {
    DigitsToken("2");
    DigitsToken("3");
    PowerGroupsRight(Num("2"), Num("3"), Num("2"));
    assert "2" + "^" + "3" + "^" + "2" == "2^3^2";
  }

  /** "-2^2" is -(2^2). */
  lemma NegatedPower()
    ensures ParseAll("-2^2") == Ok(Neg(Pow(Num("2"), Num("2"))))
  {
    DigitsToken("2");
    MinusAppliesToPower(Num("2"), Num("2"));
    assert "-" + "2" + "^" + "2" == "-2^2";
  }

  /** "sqrt(16)" applies `sqrt` to 16. */
  lemma SquareRootCall()
    ensures ParseAll("sqrt(16)") == Ok(Call(Sqrt, Num("16")))
  {
    DigitsToken("16");
    FunctionCall(Sqrt, Num("16"));
    assert FuncName(Sqrt) + "(" + "16" + ")" == "sqrt(16)";
  }

  /** "sin30^2" takes the sine of 30^2: the argument is the whole factor. */
  lemma SineOfPower()
    ensures ParseAll("sin30^2") == Ok(Call(Sin, Pow(Num("30"), Num("2"))))
  {
    DigitsToken("30");
    DigitsToken("2");
    FunctionTakesPower(Sin, Num("30"), Num("2"));
    assert FuncName(Sin) + "30" + "^" + "2" == "sin30^2";
  }

  /** "(3" is 3: the missing `)` goes unnoticed. */
  lemma UnclosedNumber()
    ensures ParseAll("(3") == Ok(Num("3"))
  {
    DigitsToken("3");
    UnclosedParenthesisAccepted(Num("3"));
    assert "(" + "3" == "(3";
  }

  /** "3)" fails at the `)`. */
  lemma StrayClosingParenthesis()
    ensures ParseAll("3)") == Err(UnexpectedCharacter(')' as int))
  {
    DigitsToken("3");
    ExtraClosingParenthesisRejected(Num("3"));
    assert "3" + ")" == "3)";
  }

  /** "1.2.3" has two dots, and "." no digit: both fail as malformed numbers. */
  lemma MalformedNumbers()
    ensures ParseAll("1.2.3") == Err(MalformedNumber("1.2.3"))
    ensures ParseAll(".") == Err(MalformedNumber("."))
  {
    var t := "1.2.3";
    assert Dots(t) == 2 by {
      assert t[1..] == ".2.3" && t[2..] == "2.3" && t[3..] == ".3" && t[4..] == "3";
      assert "3"[1..] == [];
    }
    MalformedNumberRejected(t);
    assert Dots(".") == 1 by {
      assert "."[1..] == [];
    }
    MalformedNumberRejected(".");
  }

  /** "foo(1)" names no known function. */
  lemma UnknownName()
    ensures ParseAll("foo(1)") == Err(UnknownFunction("foo"))
  {
    DigitsToken("1");
    UnknownFunctionRejected("foo", Num("1"));
    assert "foo" + "(" + "1" + ")" == "foo(1)";
  }

  /** "SIN(30)": an upper-case letter starts nothing. */
  lemma UpperCaseName()
    ensures ParseAll("SIN(30)") == Err(UnexpectedCharacter('S' as int))
  {
    UnexpectedFirstCharacter('S', "IN(30)");
    assert ['S'] + "IN(30)" == "SIN(30)";
  }

  /** "sin 30" is `sin(30)`: spaces may separate a name from its argument. */
  lemma SpacedSine()
    ensures ParseAll("sin 30") == Ok(Call(Sin, Num("30")))
  {
    assert FuncName(Sin) + " " + "30" == "sin 30";
    SpacedCall(Sin, "30");
  }

  /** "3 4" fails at the 4: two numbers side by side are no expression. */
  lemma NumbersSideBySide()
    ensures ParseAll("3 4") == Err(UnexpectedCharacter('4' as int))
  {
    assert "3" + " " + "4" == "3 4";
    SpaceSeparatedNumbersRejected("3", "4");
  }

  /** "--3" is -(-3). */
  lemma DoubleMinus()
    ensures ParseAll("--3") == Ok(Neg(Neg(Num("3"))))
  {
    assert "--" + "3" == "--3";
    DoubleNegation("3");
  }

  /** "3  " is 3: trailing spaces are skipped. */
  lemma TrailingSpaces()
    ensures ParseAll("3  ") == Ok(Num("3"))
  {
    DigitsToken("3");
    assert Print(Num("3")) + "  " == "3  ";
    TrailingSpacesAccepted(Num("3"), "  ");
  }

  /** Through `evaluate`: blank input gives "" without parsing. */
  lemma EvaluateBlank<R>(ar: Arith<R>)
    ensures Evaluation("   ", ar) == ""
  {
  }

  /** Through `evaluate`: a refused input gives "Error". */
  lemma EvaluateRefused<R>(ar: Arith<R>)
    ensures Evaluation("1.2.3", ar) == "Error"
    ensures Evaluation("3)", ar) == "Error"
  {
    MalformedNumbers();
    StrayClosingParenthesis();
    assert !IsBlank("1.2.3") by {
      assert !IsWhitespace("1.2.3"[0]);
    }
    assert !IsBlank("3)") by {
      assert !IsWhitespace("3)"[0]);
    }
  }
}
