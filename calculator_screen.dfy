/**
 * The calculator feature screen: `CalculatorViewModel.onInput` turns keypad
 * labels into an expression and, on "=", asks `CalculatorRepository`, which
 * asks `CalculationDataSource`, which runs `SimpleCalculator.evaluate`.
 */
module CalculatorScreen {
  import opened Text
  import opened SimpleCalculator
  import opened SimpleCalculatorProperties

  /** `CalculatorUiState`. */
  datatype CalculatorUiState = CalculatorUiState(expression: string, result: string)

  /** `CalculatorUiState()`: empty expression, empty result. */
  const Cleared := CalculatorUiState("", "")

  /** The keys that open a parenthesis after their name. */
  predicate IsFunctionKey(input: string) {
    input == "sin" || input == "cos" || input == "tan" || input == "sqrt"
  }

  /** What an ordinary key appends: a function name gets its `(`, anything else is taken verbatim. */
  function ToAppend(input: string): (r: string)
    ensures IsFunctionKey(input) ==> r == input + "(" && r[|r| - 1] == '('
    ensures !IsFunctionKey(input) ==> r == input
  {
    if IsFunctionKey(input) then input + "(" else input
  }

  /** The state after `onInput(input)`. */
  function AfterInput<R>(s: CalculatorUiState, input: string, ar: Arith<R>): CalculatorUiState {
    if input == "C" then Cleared
    else if input == "DEL" then
      if s.expression != "" then s.(expression := DropLast(s.expression)) else s
    else if input == "=" then
      if s.expression != "" then s.(result := Evaluation(s.expression, ar)) else s
    else s.(expression := s.expression + ToAppend(input))
  }

  /** "C" clears both fields whatever the state. */
  lemma ClearResets<R>(s: CalculatorUiState, ar: Arith<R>)
    ensures AfterInput(s, "C", ar) == CalculatorUiState("", "")
  {
  }

  /** "DEL" drops exactly the last character and keeps the result; on an empty expression it does nothing. */
  lemma DeleteDropsLast<R>(s: CalculatorUiState, ar: Arith<R>)
    ensures s.expression == "" ==> AfterInput(s, "DEL", ar) == s
    ensures s.expression != "" ==> var t := AfterInput(s, "DEL", ar);
      t.result == s.result && t.expression + [s.expression[|s.expression| - 1]] == s.expression
  {
  }

  /**
   * "=" stores what `evaluate` gives for the expression and keeps the
   * expression; the result is empty only for a blank expression. On an empty
   * expression nothing changes.
   */
  lemma EqualsEvaluates<R>(s: CalculatorUiState, ar: Arith<R>)
    ensures s.expression == "" ==> AfterInput(s, "=", ar) == s
    ensures s.expression != "" ==> var t := AfterInput(s, "=", ar);
      t.expression == s.expression && t.result == Evaluation(s.expression, ar)
      && (t.result == "" <==> IsBlank(s.expression))
  {
    EmptyExactlyWhenBlank(s.expression, ar);
  }

  /** Any other key extends the expression and leaves the result alone. */
  lemma KeyAppends<R>(s: CalculatorUiState, input: string, ar: Arith<R>)
    requires input != "C" && input != "DEL" && input != "="
    ensures AfterInput(s, input, ar) == CalculatorUiState(s.expression + ToAppend(input), s.result)
  {
  }

  /** After anything but "C", the expression is unchanged, one character shorter, or extended by the key's text. */
  lemma ExpressionShapes<R>(s: CalculatorUiState, input: string, ar: Arith<R>)
    requires input != "C"
    ensures var e := AfterInput(s, input, ar).expression;
      e == s.expression
      || (s.expression != "" && e == s.expression[..|s.expression| - 1])
      || e == s.expression + ToAppend(input)
  {
  }

  /** `CalculationDataSource`: hands the expression to `SimpleCalculator.evaluate`. */
  class CalculationDataSource<R> {
    const ar: Arith<R>

    constructor (ar: Arith<R>)
      ensures this.ar == ar
    {
      this.ar := ar;
    }

    method Evaluate(expression: string) returns (r: string)
      ensures r == Evaluation(expression, ar)
    {
      r := SimpleCalculator.Evaluate(expression, ar);
    }
  }

  /** `CalculatorRepository`: hands the expression to its data source. */
  class CalculatorRepository<R> {
    const dataSource: CalculationDataSource<R>

    constructor (dataSource: CalculationDataSource<R>)
      ensures this.dataSource == dataSource
    {
      this.dataSource := dataSource;
    }

    method Calculate(expression: string) returns (r: string)
      ensures r == Evaluation(expression, dataSource.ar)
    {
      r := dataSource.Evaluate(expression);
    }
  }

  /** `CalculatorViewModel`. */
  class CalculatorViewModel<R> {
    const repository: CalculatorRepository<R>
    var uiState: CalculatorUiState

    constructor (repository: CalculatorRepository<R>)
      ensures this.repository == repository && uiState == Cleared
    {
      this.repository := repository;
      uiState := Cleared;
    }

    method OnInput(input: string)
      modifies this
      ensures uiState == AfterInput(old(uiState), input, repository.dataSource.ar)
    {
      var currentExpression := uiState.expression;
      if input == "C" {
        uiState := CalculatorUiState("", "");
      } else if input == "DEL" {
        if currentExpression != "" {
          uiState := uiState.(expression := DropLast(currentExpression));
        }
      } else if input == "=" {
        if currentExpression != "" {
          var result := repository.Calculate(currentExpression);
          uiState := uiState.(result := result);
        }
      } else {
        var toAppend := if IsFunctionKey(input) then input + "(" else input;
        uiState := uiState.(expression := currentExpression + toAppend);
      }
    }
  }
}
