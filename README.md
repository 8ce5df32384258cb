# MathAi, modelled in Dafny

MathAi is an Android tutoring app with a web companion. The modelled core is the following.

- **`SimpleCalculator.evaluate`.** A single-pass recursive-descent parser and evaluator for arithmetic text. It handles binary `+ - * /`, unary signs, right-associative `^` and the functions `sqrt`, `sin`, `cos` and `tan`. Blank input gives `""` and every failure gives `"Error"`.
- **The two calculator keypads.** These are `CalculatorViewModel.onInput` and the calculator inside `LearningViewModel`, which differ in their `"sqrt"` and empty-`"="` handling.
- **The `LearningViewModel` state.** This is the message history, the selected phase, the calculator toggle and the synchronous part of `sendMessage`.
- **The integer `CalculatorLogic`.** Kotlin `Int` arithmetic wraps at 32 bits, and division truncates toward zero.
- **The three onboarding survey view-models and their `SharedPreferences`-backed `PreferenceManager`s.**
- **The two versions of the tutor's system-prompt builder.** They live in `PromptFactory.kt` and `PromptUtils.kt`. The final prompt of `MathRepository.getAssistantResponse` is modelled too.
- **The web chat's send guard and its build-mode loop.** The loop merges generated files into the project by name.

How each part is modelled:

- **The parser is imperative.** `SimpleCalculator.Parser` is a class with the mutable cursor (`pos`, and `ch` with `-1` past the end). Its methods are `NextChar`, `Eat` and the mutually recursive `Parse*` methods. Each method is proved equal to a pure grammar function (`Expression`, `Term`, `Factor`, `Primary`). The grammar functions build an `Expr` tree, and `Eval` folds that tree.
- **Doubles are abstract.** They are a type parameter `R`, and every floating-point operation is supplied by an `Arith<R>` value.
- **View-model state is a class field.** Each view-model is a class whose methods reassign its `uiState`. Each method is proved equal to a pure transition function, and the properties are lemmas about those functions.
- **Preferences are a map.** The preferences file is a `map` field of a `PreferenceManager` class.
- **Prompt templates are opaque.** Each fixed text block is a `Template` whose literal pieces come from a `Literals` parameter. Only the interpolated values and the branching are modelled.
- **The app generator is a parameter.** Build mode's call to `generateAppStructure` is a function of the round number, the prompt and the files. The round number stands for whatever makes the remote model answer differently from one round to the next.

| file | models |
|---|---|
| `text.dfy` | Kotlin's `isBlank`, JavaScript's `trim` test, ASCII `lowercase`, `dropLast(1)` and integer rendering |
| `simple_calculator.dfy` | The parser, `formatResult` and `evaluate` |
| `calculator_properties.dfy` | Grammar rules, the print/parse round trip, precedence and associativity, rejected inputs |
| `calculator_examples.dfy` | Concrete inputs |
| `calculator_logic.dfy` | `CalculatorLogic` |
| `calculator_screen.dfy` | `CalculatorUiState`, `onInput`, the repository and the data source |
| `learning.dfy` | `LearningViewModel` |
| `preferences.dfy` | The five-field `PreferenceManager` |
| `survey.dfy` | The survey view-models of `SurveyViewModel.kt` and `SurveyScreen.kt` |
| `onboarding.dfy` | The three-field `PreferenceManager` and survey view-model |
| `templates.dfy` | Learning phases, template blocks and substring occurrence |
| `prompt_factory.dfy` | `PromptFactory.kt` |
| `prompt_utils.dfy` | `PromptUtils.kt` |
| `chat.dfy` | `ChatInterface.tsx` |

## Model

| member | source | states |
|---|---|---|
| Text.Lower | app/src/main/java/com/example/myapplication/util/PromptFactory.kt:87 | On the ASCII model of `lowercase(Locale.ROOT)`: the length is kept and each character is mapped independently (the source's full Unicode mapping can change the length, e.g. U+0130) |
| Text.LowerIdempotent | app/src/main/java/com/example/myapplication/util/PromptFactory.kt:87 | Lowercasing twice equals lowercasing once, and the result has no upper-case ASCII letter |
| Text.DropLast | app/src/main/java/com/example/myapplication/ui/calculator/CalculatorScreen.kt:247 | `dropLast(1)` plus the dropped last character gives back the string; on `""` it gives `""` |
| Text.IntToString | app/src/main/java/com/example/myapplication/util/SimpleCalculator.kt:126 | `Long.toString` is digits, with a leading `-` exactly for negative numbers |
| Text.NatToStringRoundTrip | app/src/main/java/com/example/myapplication/util/SimpleCalculator.kt:126 | Reading the rendered digits back gives the number |
| Text.IntToStringInjective | app/src/main/java/com/example/myapplication/util/SimpleCalculator.kt:124-126 | Different integers never render the same |
| SimpleCalculator.FuncNamed | app/src/main/java/com/example/myapplication/util/SimpleCalculator.kt:91-97 | Only `sqrt`, `sin`, `cos` and `tan` (both directions) are known, and each maps to its own function |
| SimpleCalculator.SkipSpaces | app/src/main/java/com/example/myapplication/util/SimpleCalculator.kt:36 | The space-skipping loop passes over spaces only and stops, within the input, on the first non-space or the end |
| SimpleCalculator.EatAt | app/src/main/java/com/example/myapplication/util/SimpleCalculator.kt:35-42 | `eat(c)` passes over spaces only; on success it ends exactly one past the first non-space, which is `c`; on failure it rests on that first non-space, which is not `c` |
| SimpleCalculator.RunEnd | app/src/main/java/com/example/myapplication/util/SimpleCalculator.kt:84-88 | A number or name scan stops within the input on the first character outside its class |
| SimpleCalculator.Expression | app/src/main/java/com/example/myapplication/util/SimpleCalculator.kt:57-64 | A parsed expression consumes input and ends where no `+ - * / ^` or space follows |
| SimpleCalculator.ExpressionTail | app/src/main/java/com/example/myapplication/util/SimpleCalculator.kt:59-63 | The `+`/`-` loop never moves back and ends where no binary operator follows |
| SimpleCalculator.Term | app/src/main/java/com/example/myapplication/util/SimpleCalculator.kt:66-73 | A parsed term consumes input and ends where no `* / ^` or space follows |
| SimpleCalculator.TermTail | app/src/main/java/com/example/myapplication/util/SimpleCalculator.kt:68-72 | The `*`/`/` loop never moves back and ends where no `*` or `/` follows |
| SimpleCalculator.Factor | app/src/main/java/com/example/myapplication/util/SimpleCalculator.kt:75-105 | A parsed factor consumes input and ends where no `^` or space follows |
| SimpleCalculator.Primary | app/src/main/java/com/example/myapplication/util/SimpleCalculator.kt:79-100 | A parenthesis, number or call consumes at least one character |
| SimpleCalculator.FormatResult | app/src/main/java/com/example/myapplication/util/SimpleCalculator.kt:120-132 | Non-finite values print as `"Error"`; a value equal to its `Long` truncation prints as that integer with no `.`; the output is never empty |
| SimpleCalculator.Parser.constructor | app/src/main/java/com/example/myapplication/util/SimpleCalculator.kt:27-29 | The cursor starts at `pos = -1`, `ch = -1` |
| SimpleCalculator.Parser.NextChar | app/src/main/java/com/example/myapplication/util/SimpleCalculator.kt:31-33 | `pos` rises by exactly one; `ch` is the code at `pos`, and `-1` exactly when `pos >= length` |
| SimpleCalculator.Parser.Eat | app/src/main/java/com/example/myapplication/util/SimpleCalculator.kt:35-42 | The result and the new cursor are those of `EatAt` |
| SimpleCalculator.Parser.Parse | app/src/main/java/com/example/myapplication/util/SimpleCalculator.kt:44-49 | The result is `ParseAll`: one expression that must reach the end of the input |
| SimpleCalculator.Parser.ParseExpression | app/src/main/java/com/example/myapplication/util/SimpleCalculator.kt:57-64 | The result and final cursor agree with `Expression` from the starting position; the cursor never moves back |
| SimpleCalculator.Parser.ParseTerm | app/src/main/java/com/example/myapplication/util/SimpleCalculator.kt:66-73 | The result and final cursor agree with `Term` |
| SimpleCalculator.Parser.ParseFactor | app/src/main/java/com/example/myapplication/util/SimpleCalculator.kt:75-105 | The result and final cursor agree with `Factor` |
| SimpleCalculator.Parser.ParsePrimary | app/src/main/java/com/example/myapplication/util/SimpleCalculator.kt:79-100 | The result and final cursor agree with `Primary` |
| SimpleCalculator.Evaluate | app/src/main/java/com/example/myapplication/util/SimpleCalculator.kt:24-112 | `evaluate` returns `""` for blank input, `"Error"` for any parse failure, else the formatted value of the tree |
| SimpleCalculatorProperties.FuncNameNamed | app/src/main/java/com/example/myapplication/util/SimpleCalculator.kt:91-97 | Every function's name selects that function |
| SimpleCalculatorProperties.TermTailStops | app/src/main/java/com/example/myapplication/util/SimpleCalculator.kt:68-71 | With no `*` or `/` ahead, the term loop returns what it has |
| SimpleCalculatorProperties.ExpressionTailStops | app/src/main/java/com/example/myapplication/util/SimpleCalculator.kt:59-62 | With no `+` or `-` ahead, the expression loop returns what it has |
| SimpleCalculatorProperties.TermOfFactor | app/src/main/java/com/example/myapplication/util/SimpleCalculator.kt:66-72 | A factor with no `*` or `/` after it is the whole term |
| SimpleCalculatorProperties.ExpressionOfTerm | app/src/main/java/com/example/myapplication/util/SimpleCalculator.kt:57-63 | A term with no `+` or `-` after it is the whole expression |
| SimpleCalculatorProperties.FactorOfPrimary | app/src/main/java/com/example/myapplication/util/SimpleCalculator.kt:75-104 | An unsigned factor with no `^` after it is its primary |
| SimpleCalculatorProperties.FactorPow | app/src/main/java/com/example/myapplication/util/SimpleCalculator.kt:102 | `primary ^ factor` is `Pow` with the whole following factor as exponent |
| SimpleCalculatorProperties.FactorNeg | app/src/main/java/com/example/myapplication/util/SimpleCalculator.kt:77 | Unary minus negates the whole following factor |
| SimpleCalculatorProperties.PrimaryParenthesised | app/src/main/java/com/example/myapplication/util/SimpleCalculator.kt:81-83 | `( expression )` is the expression, and the `)` is consumed |
| SimpleCalculatorProperties.PrimaryUnclosed | app/src/main/java/com/example/myapplication/util/SimpleCalculator.kt:81-83 | A missing `)` is not an error: the expression stands and the cursor stays |
| SimpleCalculatorProperties.PrimaryErrorFailsParse | app/src/main/java/com/example/myapplication/util/SimpleCalculator.kt:44-100 | An error in the first primary propagates unchanged to the whole parse |
| SimpleCalculatorProperties.PrimaryNumber | app/src/main/java/com/example/myapplication/util/SimpleCalculator.kt:84-86 | A maximal run of digits and dots that `toDouble` accepts is one number token |
| SimpleCalculatorProperties.PrimaryNamed | app/src/main/java/com/example/myapplication/util/SimpleCalculator.kt:87-97 | After a run of letters the argument factor is parsed, then the name gives a call or `UnknownFunction` |
| SimpleCalculatorProperties.PrimaryCall | app/src/main/java/com/example/myapplication/util/SimpleCalculator.kt:87-95 | A known name followed by a factor is a call on that factor |
| SimpleCalculatorProperties.PrimaryUnknown | app/src/main/java/com/example/myapplication/util/SimpleCalculator.kt:87-96 | Any other name fails with `UnknownFunction`, after its argument parses |
| SimpleCalculatorProperties.TermStart | app/src/main/java/com/example/myapplication/util/SimpleCalculator.kt:66-67 | A term is its first factor followed by the `*`/`/` loop |
| SimpleCalculatorProperties.ExpressionStart | app/src/main/java/com/example/myapplication/util/SimpleCalculator.kt:57-58 | An expression is its first term followed by the `+`/`-` loop |
| SimpleCalculatorProperties.ExpressionTailStep | app/src/main/java/com/example/myapplication/util/SimpleCalculator.kt:59-61 | One turn of the `+`/`-` loop extends the accumulated tree on its right |
| SimpleCalculatorProperties.TermTailStep | app/src/main/java/com/example/myapplication/util/SimpleCalculator.kt:68-70 | One turn of the `*`/`/` loop extends the accumulated tree on its right |
| SimpleCalculatorProperties.ParseAllWhole | app/src/main/java/com/example/myapplication/util/SimpleCalculator.kt:44-48 | An expression that reaches the end is the parse result |
| SimpleCalculatorProperties.TermBinary | app/src/main/java/com/example/myapplication/util/SimpleCalculator.kt:66-72 | `x * y` and `x / y` form one term |
| SimpleCalculatorProperties.ExpressionBinary | app/src/main/java/com/example/myapplication/util/SimpleCalculator.kt:57-63 | `x + y` and `x - y` form one expression |
| SimpleCalculatorProperties.ExpressionTailLast | app/src/main/java/com/example/myapplication/util/SimpleCalculator.kt:59-62 | The final turn of the `+`/`-` loop yields `x op y` |
| SimpleCalculatorProperties.TermTailLast | app/src/main/java/com/example/myapplication/util/SimpleCalculator.kt:68-71 | The final turn of the `*`/`/` loop yields `x op y` |
| SimpleCalculatorProperties.ExpressionTailTwo | app/src/main/java/com/example/myapplication/util/SimpleCalculator.kt:59-63 | Two turns of the `+`/`-` loop group to the left |
| SimpleCalculatorProperties.TermTailTwo | app/src/main/java/com/example/myapplication/util/SimpleCalculator.kt:68-72 | Two turns of the `*`/`/` loop group to the left |
| SimpleCalculatorProperties.RoundTrip | app/src/main/java/com/example/myapplication/util/SimpleCalculator.kt:44-105 | Parsing the fully parenthesised text of any well-formed tree gives exactly that tree |
| SimpleCalculatorProperties.ProductBindsTighter | app/src/main/java/com/example/myapplication/util/SimpleCalculator.kt:57-73 | `a + b * c` parses as `a + (b * c)`, for every operand tree and both operator pairs |
| SimpleCalculatorProperties.ProductBindsTighterOnTheLeft | app/src/main/java/com/example/myapplication/util/SimpleCalculator.kt:57-73 | `a * b + c` parses as `(a * b) + c` |
| SimpleCalculatorProperties.SumsGroupLeft | app/src/main/java/com/example/myapplication/util/SimpleCalculator.kt:57-64 | `a - b - c` parses as `(a - b) - c` |
| SimpleCalculatorProperties.ProductsGroupLeft | app/src/main/java/com/example/myapplication/util/SimpleCalculator.kt:66-73 | `a / b / c` parses as `(a / b) / c` |
| SimpleCalculatorProperties.PowerGroupsRight | app/src/main/java/com/example/myapplication/util/SimpleCalculator.kt:102 | `a ^ b ^ c` parses as `a ^ (b ^ c)` |
| SimpleCalculatorProperties.MinusAppliesToPower | app/src/main/java/com/example/myapplication/util/SimpleCalculator.kt:75-105 | `-a ^ b` parses as `-(a ^ b)` |
| SimpleCalculatorProperties.FunctionTakesPower | app/src/main/java/com/example/myapplication/util/SimpleCalculator.kt:87-102 | `f a ^ b` parses as `f(a ^ b)`: the argument is a whole factor |
| SimpleCalculatorProperties.FunctionCall | app/src/main/java/com/example/myapplication/util/SimpleCalculator.kt:87-97 | `f(e)` parses as a call of `f` on `e` |
| SimpleCalculatorProperties.UnknownFunctionRejected | app/src/main/java/com/example/myapplication/util/SimpleCalculator.kt:96 | Any other lower-case name followed by `(e)` fails with `UnknownFunction(name)` |
| SimpleCalculatorProperties.MalformedNumberRejected | app/src/main/java/com/example/myapplication/util/SimpleCalculator.kt:84-86 | A digit/dot token that `toDouble` refuses fails the whole parse |
| SimpleCalculatorProperties.UnexpectedFirstCharacter | app/src/main/java/com/example/myapplication/util/SimpleCalculator.kt:98-99 | Input starting with a character no rule accepts fails on that character |
| SimpleCalculatorProperties.UnclosedParenthesisAccepted | app/src/main/java/com/example/myapplication/util/SimpleCalculator.kt:81-83 | `(` followed by any well-formed expression parses as the expression |
| SimpleCalculatorProperties.ExtraClosingParenthesisRejected | app/src/main/java/com/example/myapplication/util/SimpleCalculator.kt:47 | A stray `)` after a complete expression is an unexpected character |
| SimpleCalculatorProperties.SkipSpacesToEnd | app/src/main/java/com/example/myapplication/util/SimpleCalculator.kt:36 | Spaces up to the end are all skipped |
| SimpleCalculatorProperties.TrailingSpacesAccepted | app/src/main/java/com/example/myapplication/util/SimpleCalculator.kt:35-48 | Trailing spaces after any expression are accepted |
| SimpleCalculatorProperties.SpaceSeparatedNumbersRejected | app/src/main/java/com/example/myapplication/util/SimpleCalculator.kt:47 | `a b` for two digit strings fails at the first digit of `b` |
| SimpleCalculatorProperties.SpacedCall | app/src/main/java/com/example/myapplication/util/SimpleCalculator.kt:87-90 | A space may separate a function name from its numeric argument |
| SimpleCalculatorProperties.DoubleNegation | app/src/main/java/com/example/myapplication/util/SimpleCalculator.kt:77 | `--a` parses as `-(-a)` |
| SimpleCalculatorProperties.EmptyExactlyWhenBlank | app/src/main/java/com/example/myapplication/util/SimpleCalculator.kt:25 | `evaluate` returns `""` if and only if the input is blank |
| SimpleCalculatorProperties.EvaluatesPrinted | app/src/main/java/com/example/myapplication/util/SimpleCalculator.kt:106-111 | The printed text of a tree evaluates to that tree's formatted value |
| SimpleCalculatorExamples.DigitsToken | app/src/main/java/com/example/myapplication/util/SimpleCalculator.kt:84-86 | A run of digits is an accepted number token |
| SimpleCalculatorExamples.ProductBeforeSum | app/src/main/java/com/example/myapplication/util/SimpleCalculator.kt:21 | `"3+5*2"` is `3 + (5 * 2)` |
| SimpleCalculatorExamples.DifferencesFromTheLeft | app/src/main/java/com/example/myapplication/util/SimpleCalculator.kt:57-64 | `"10-4-3"` is `(10 - 4) - 3` |
| SimpleCalculatorExamples.QuotientsFromTheLeft | app/src/main/java/com/example/myapplication/util/SimpleCalculator.kt:66-73 | `"8/4/2"` is `(8 / 4) / 2` |
| SimpleCalculatorExamples.PowerTower | app/src/main/java/com/example/myapplication/util/SimpleCalculator.kt:102 | `"2^3^2"` is `2^(3^2)` |
| SimpleCalculatorExamples.NegatedPower | app/src/main/java/com/example/myapplication/util/SimpleCalculator.kt:77 | `"-2^2"` is `-(2^2)` |
| SimpleCalculatorExamples.SquareRootCall | app/src/main/java/com/example/myapplication/util/SimpleCalculator.kt:92 | `"sqrt(16)"` calls `sqrt` on 16 |
| SimpleCalculatorExamples.SineOfPower | app/src/main/java/com/example/myapplication/util/SimpleCalculator.kt:87-102 | `"sin30^2"` is `sin(30^2)` |
| SimpleCalculatorExamples.UnclosedNumber | app/src/main/java/com/example/myapplication/util/SimpleCalculator.kt:81-83 | `"(3"` is 3 |
| SimpleCalculatorExamples.StrayClosingParenthesis | app/src/main/java/com/example/myapplication/util/SimpleCalculator.kt:47 | `"3)"` fails at the `)` |
| SimpleCalculatorExamples.MalformedNumbers | app/src/main/java/com/example/myapplication/util/SimpleCalculator.kt:86 | `"1.2.3"` and `"."` fail as malformed numbers |
| SimpleCalculatorExamples.UnknownName | app/src/main/java/com/example/myapplication/util/SimpleCalculator.kt:96 | `"foo(1)"` fails as an unknown function |
| SimpleCalculatorExamples.UpperCaseName | app/src/main/java/com/example/myapplication/util/SimpleCalculator.kt:98-99 | `"SIN(30)"` fails at the `S` |
| SimpleCalculatorExamples.SpacedSine | app/src/main/java/com/example/myapplication/util/SimpleCalculator.kt:87-90 | `"sin 30"` is `sin(30)` |
| SimpleCalculatorExamples.NumbersSideBySide | app/src/main/java/com/example/myapplication/util/SimpleCalculator.kt:47 | `"3 4"` fails at the `4` |
| SimpleCalculatorExamples.DoubleMinus | app/src/main/java/com/example/myapplication/util/SimpleCalculator.kt:77 | `"--3"` is `-(-3)` |
| SimpleCalculatorExamples.TrailingSpaces | app/src/main/java/com/example/myapplication/util/SimpleCalculator.kt:36 | `"3  "` is 3 |
| SimpleCalculatorExamples.EvaluateBlank | app/src/main/java/com/example/myapplication/util/SimpleCalculator.kt:25 | `evaluate("   ")` is `""` |
| SimpleCalculatorExamples.EvaluateRefused | app/src/main/java/com/example/myapplication/util/SimpleCalculator.kt:109-111 | `evaluate("1.2.3")` and `evaluate("3)")` are `"Error"` |
| CalculatorLogic.Wrap | app/src/main/kotlin/com/example/myapplication/CalculatorLogic.kt:11-13 | The wrapped `Int` is congruent to the exact value modulo 2^32, and equals it when it is in range |
| CalculatorLogic.WrapCongruent | app/src/main/kotlin/com/example/myapplication/CalculatorLogic.kt:11-13 | Values congruent modulo 2^32 wrap to the same `Int` |
| CalculatorLogic.TruncDiv | app/src/main/kotlin/com/example/myapplication/CalculatorLogic.kt:14 | The quotient's magnitude is the quotient of the magnitudes, and its sign is the product of the signs |
| CalculatorLogic.TruncatedRemainder | app/src/main/kotlin/com/example/myapplication/CalculatorLogic.kt:14 | Truncating division leaves a remainder with the dividend's sign, smaller than the divisor |
| CalculatorLogic.Add | app/src/main/kotlin/com/example/myapplication/CalculatorLogic.kt:11 | `add` is `a + b` modulo 2^32, and exact when there is no overflow |
| CalculatorLogic.Subtract | app/src/main/kotlin/com/example/myapplication/CalculatorLogic.kt:12 | `subtract` is `a - b` modulo 2^32, and exact when there is no overflow |
| CalculatorLogic.Multiply | app/src/main/kotlin/com/example/myapplication/CalculatorLogic.kt:13 | `multiply` is `a * b` modulo 2^32, and exact when there is no overflow |
| CalculatorLogic.Divide | app/src/main/kotlin/com/example/myapplication/CalculatorLogic.kt:14 | `divide` throws "Cannot divide by zero" exactly when `b == 0`; otherwise it truncates toward zero |
| CalculatorLogic.DivideOverflow | app/src/main/kotlin/com/example/myapplication/CalculatorLogic.kt:14 | `Int.MIN_VALUE / -1` returns `Int.MIN_VALUE` |
| CalculatorLogic.QuotientInRange | app/src/main/kotlin/com/example/myapplication/CalculatorLogic.kt:14 | Every other quotient is in range and no larger in magnitude than the dividend |
| CalculatorLogic.DivisionTruncates | app/src/main/kotlin/com/example/myapplication/CalculatorLogic.kt:14 | `-7 / 2 = -3`, `7 / -2 = -3`, `-7 / -2 = 3` |
| CalculatorLogic.SubtractUndoesAdd | app/src/main/kotlin/com/example/myapplication/CalculatorLogic.kt:11-12 | `subtract(add(a, b), b) == a`, even across overflow |
| CalculatorLogic.AddUndoesSubtract | app/src/main/kotlin/com/example/myapplication/CalculatorLogic.kt:11-12 | `add(subtract(a, b), b) == a`, even across overflow |
| CalculatorLogic.AddWraps | app/src/main/kotlin/com/example/myapplication/CalculatorLogic.kt:11-12 | `MAX_VALUE + 1` is `MIN_VALUE`, and `MIN_VALUE - 1` is `MAX_VALUE` |
| CalculatorLogic.ScreenValues | app/src/main/kotlin/com/example/myapplication/CalculatorLogic.kt:21-22 | The feature screen shows 8 and 6 |
| CalculatorScreen.ToAppend | app/src/main/java/com/example/myapplication/ui/calculator/CalculatorScreen.kt:264 | The four function keys get `(` appended; every other label is taken verbatim |
| CalculatorScreen.ClearResets | app/src/main/java/com/example/myapplication/ui/calculator/CalculatorScreen.kt:239-242 | `"C"` resets both fields to `""` |
| CalculatorScreen.DeleteDropsLast | app/src/main/java/com/example/myapplication/ui/calculator/CalculatorScreen.kt:243-250 | `"DEL"` drops exactly the last character and keeps the result; on an empty expression nothing changes |
| CalculatorScreen.EqualsEvaluates | app/src/main/java/com/example/myapplication/ui/calculator/CalculatorScreen.kt:251-257 | `"="` sets the result to `evaluate(expression)` and keeps the expression; on an empty expression nothing changes |
| CalculatorScreen.KeyAppends | app/src/main/java/com/example/myapplication/ui/calculator/CalculatorScreen.kt:258-266 | Any other key appends its text and leaves the result alone |
| CalculatorScreen.ExpressionShapes | app/src/main/java/com/example/myapplication/ui/calculator/CalculatorScreen.kt:234-268 | After any input but `"C"`, the expression is unchanged, one character shorter, or extended by the key's text |
| CalculatorScreen.CalculationDataSource.Evaluate | app/src/main/java/com/example/myapplication/ui/calculator/CalculatorScreen.kt:302-304 | Returns `SimpleCalculator.evaluate(expression)` |
| CalculatorScreen.CalculatorRepository.Calculate | app/src/main/java/com/example/myapplication/ui/calculator/CalculatorScreen.kt:284-286 | Returns what the data source returns, which is `evaluate(expression)` |
| CalculatorScreen.CalculatorViewModel.constructor | app/src/main/java/com/example/myapplication/ui/calculator/CalculatorScreen.kt:229-232 | The state starts as `CalculatorUiState()` |
| CalculatorScreen.CalculatorViewModel.OnInput | app/src/main/java/com/example/myapplication/ui/calculator/CalculatorScreen.kt:234-268 | The new state is the `AfterInput` transition of the old state |
| Learning.WelcomeMentionsHobby | app/src/main/java/com/example/myapplication/ui/learning/LearningViewModel.kt:68-84 | The session starts with exactly one professor message, and it names the stored hobby |
| Learning.CalculatorKeysStayInside | app/src/main/java/com/example/myapplication/ui/learning/LearningViewModel.kt:146-170 | Calculator keys change only `calcExpression` and `calcResult` |
| Learning.KeypadsAgree | app/src/main/java/com/example/myapplication/ui/learning/LearningViewModel.kt:146-170 | Except for `"sqrt"` and `"="` on an empty expression, this keypad behaves exactly like `CalculatorViewModel.onInput` |
| Learning.KeypadsDiffer | app/src/main/java/com/example/myapplication/ui/learning/LearningViewModel.kt:157-167 | Here `"sqrt"` is appended without `(`, and `"="` on an empty expression sets the result to `""` |
| Learning.SendOutcome | app/src/main/java/com/example/myapplication/ui/learning/LearningViewModel.kt:100-112 | Blank text changes nothing; otherwise one user message is appended, loading starts, the error clears, and nothing else changes |
| Learning.ToggleTwice | app/src/main/java/com/example/myapplication/ui/learning/LearningViewModel.kt:142-144 | Toggling the calculator twice restores the state |
| Learning.HistoryOnlyGrows | app/src/main/java/com/example/myapplication/ui/learning/LearningViewModel.kt:89-170 | After any sequence of actions, the earlier messages remain as a prefix, in order |
| Learning.LearningViewModel.constructor | app/src/main/java/com/example/myapplication/ui/learning/LearningViewModel.kt:53-63 | Construction runs `initializeSession` on the stored profile |
| Learning.LearningViewModel.InitializeSession | app/src/main/java/com/example/myapplication/ui/learning/LearningViewModel.kt:68-84 | Stores the hobby and posts the greeting |
| Learning.LearningViewModel.OnPhaseSelected | app/src/main/java/com/example/myapplication/ui/learning/LearningViewModel.kt:89-91 | Only `currentPhase` changes |
| Learning.LearningViewModel.SendMessage | app/src/main/java/com/example/myapplication/ui/learning/LearningViewModel.kt:100-119 | The state follows `SendPrefix`; the request goes out with the text and the phase from before the call, and none is made for blank text |
| Learning.LearningViewModel.AddMessage | app/src/main/java/com/example/myapplication/ui/learning/LearningViewModel.kt:133-138 | Exactly one message is appended at the end, and nothing else changes |
| Learning.LearningViewModel.ToggleCalculator | app/src/main/java/com/example/myapplication/ui/learning/LearningViewModel.kt:142-144 | Only `isCalculatorVisible` flips |
| Learning.LearningViewModel.OnCalculatorInput | app/src/main/java/com/example/myapplication/ui/learning/LearningViewModel.kt:146-170 | The new state is the `CalculatorInput` transition of the old state |
| Preferences.GetString | app/src/main/java/com/example/myapplication/ui/onboarding/SurveyScreen.kt:60 | A missing key reads as the default |
| Preferences.GetBoolean | app/src/main/java/com/example/myapplication/ui/onboarding/SurveyScreen.kt:29 | A missing key reads as the default |
| Preferences.PutStringThenGet | app/src/main/java/com/example/myapplication/ui/onboarding/SurveyScreen.kt:39-47 | A written string reads back, and other keys are unaffected |
| Preferences.SaveThenRead | app/src/main/java/com/example/myapplication/ui/onboarding/SurveyScreen.kt:32-66 | After `saveUserData(h, g, c, l, d)`, `getUserData` is exactly `(h, g, c, l, d)` and setup is done |
| Preferences.SaveKeepsOtherKeys | app/src/main/java/com/example/myapplication/ui/onboarding/SurveyScreen.kt:39-47 | Saving writes only the six profile keys |
| Preferences.FreshStore | app/src/main/java/com/example/myapplication/ui/onboarding/SurveyScreen.kt:28-66 | An empty file reads as setup not done, with every field `""` |
| Preferences.PreferenceManager.constructor | app/src/main/java/com/example/myapplication/ui/onboarding/SurveyScreen.kt:14-16 | Opens the file with its current contents |
| Preferences.PreferenceManager.SaveUserData | app/src/main/java/com/example/myapplication/ui/onboarding/SurveyScreen.kt:32-48 | The file becomes `Saved(old, profile)`; the profile reads back and setup is done |
| OnboardingSurvey.SetSetupDoneThenRead | app/src/main/java/com/mathassistant/ui/onboarding/OnboardingViewModel.kt:28-34 | `setSetupDone(b)` then `isSetupDone()` is `b`, and the answers are untouched |
| OnboardingSurvey.SaveAnswersThenRead | app/src/main/java/com/mathassistant/ui/onboarding/OnboardingViewModel.kt:36-51 | `saveUserData(h, g, c)` then `getUserData()` is `Triple(h, g, c)` and setup is done |
| OnboardingSurvey.FreshAnswers | app/src/main/java/com/mathassistant/ui/onboarding/OnboardingViewModel.kt:28-51 | An empty file reads as setup not done, with every answer `""` |
| OnboardingSurvey.PreferenceManager.constructor | app/src/main/java/com/mathassistant/ui/onboarding/OnboardingViewModel.kt:16-18 | Opens the file with its current contents |
| OnboardingSurvey.PreferenceManager.SetSetupDone | app/src/main/java/com/mathassistant/ui/onboarding/OnboardingViewModel.kt:32-34 | Writes the flag, which then reads back |
| OnboardingSurvey.PreferenceManager.SaveUserData | app/src/main/java/com/mathassistant/ui/onboarding/OnboardingViewModel.kt:36-44 | Writes the three answers and the flag, which then read back |
| OnboardingSurvey.SubmitOutcome | app/src/main/java/com/mathassistant/ui/onboarding/OnboardingViewModel.kt:168-189 | A blank answer changes neither state nor file; otherwise the answers are stored, setup is done, and the state is complete and not loading |
| OnboardingSurvey.ResetSendsBackToSurvey | app/src/main/java/com/mathassistant/ui/onboarding/OnboardingViewModel.kt:28-44 | `setSetupDone(false)` after a submit reopens the survey with the answers kept |
| OnboardingSurvey.SurveyViewModel.constructor | app/src/main/java/com/mathassistant/ui/onboarding/OnboardingViewModel.kt:133-147 | The state starts empty, with `isComplete` set to the stored flag |
| OnboardingSurvey.SurveyViewModel.CheckStartupStatus | app/src/main/java/com/mathassistant/ui/onboarding/OnboardingViewModel.kt:144-147 | Copies the stored flag into `isComplete`, and nothing else changes |
| OnboardingSurvey.SurveyViewModel.OnHobbyChange | app/src/main/java/com/mathassistant/ui/onboarding/OnboardingViewModel.kt:149-151 | Only `hobby` changes |
| OnboardingSurvey.SurveyViewModel.OnGradeChange | app/src/main/java/com/mathassistant/ui/onboarding/OnboardingViewModel.kt:153-155 | Only `grade` changes |
| OnboardingSurvey.SurveyViewModel.OnCountryChange | app/src/main/java/com/mathassistant/ui/onboarding/OnboardingViewModel.kt:157-159 | Only `country` changes |
| OnboardingSurvey.SurveyViewModel.SubmitSurvey | app/src/main/java/com/mathassistant/ui/onboarding/OnboardingViewModel.kt:168-189 | The new state and file are `Submit` of the old ones |
| Survey.SetterChangesOnlyItsField | app/src/main/java/com/example/myapplication/ui/onboarding/SurveyViewModel.kt:71-89 | A setter changes its own field to the new value and nothing else |
| Survey.ButtonMatchesValidation | app/src/main/java/com/example/myapplication/ui/onboarding/SurveyScreen.kt:386 | The submit button is enabled exactly when `isValidInput` holds |
| Survey.LikesAndDislikesFree | app/src/main/java/com/example/myapplication/ui/onboarding/SurveyViewModel.kt:147-152 | Likes and dislikes never affect validity |
| Survey.SubmitOutcome | app/src/main/java/com/example/myapplication/ui/onboarding/SurveyViewModel.kt:124-145 | Invalid input changes neither state nor file; otherwise the five fields are stored from the snapshot, setup is done, and the state is complete and not loading with its other fields unchanged |
| Survey.ReopenAfterSubmit | app/src/main/java/com/example/myapplication/ui/onboarding/SurveyViewModel.kt:53-67 | After a submit, this view-model reopens showing the saved answers, and the `SurveyScreen.kt` one reopens with an empty form |
| Survey.CompletionIsFinal | app/src/main/java/com/example/myapplication/ui/onboarding/SurveyViewModel.kt:71-145 | No sequence of edits and submits sets `isComplete` back to false |
| Survey.SetupStaysDone | app/src/main/java/com/example/myapplication/ui/onboarding/SurveyViewModel.kt:124-145 | No sequence of edits and submits clears the stored flag |
| Survey.SurveyViewModel.constructor | app/src/main/java/com/example/myapplication/ui/onboarding/SurveyViewModel.kt:41-48 | Construction runs `checkStartupStatus` on the stored file |
| Survey.SurveyViewModel.CheckStartupStatus | app/src/main/java/com/example/myapplication/ui/onboarding/SurveyViewModel.kt:53-67 | A finished setup loads the five stored fields and marks the survey complete; otherwise the state stays default |
| Survey.SurveyViewModel.OnHobbyChange | app/src/main/java/com/example/myapplication/ui/onboarding/SurveyViewModel.kt:71-73 | Only `hobby` changes |
| Survey.SurveyViewModel.OnGradeChange | app/src/main/java/com/example/myapplication/ui/onboarding/SurveyViewModel.kt:75-77 | Only `grade` changes |
| Survey.SurveyViewModel.OnCountryChange | app/src/main/java/com/example/myapplication/ui/onboarding/SurveyViewModel.kt:79-81 | Only `country` changes |
| Survey.SurveyViewModel.OnLikesChange | app/src/main/java/com/example/myapplication/ui/onboarding/SurveyViewModel.kt:83-85 | Only `likes` changes |
| Survey.SurveyViewModel.OnDislikesChange | app/src/main/java/com/example/myapplication/ui/onboarding/SurveyViewModel.kt:87-89 | Only `dislikes` changes |
| Survey.SurveyViewModel.SubmitSurvey | app/src/main/java/com/example/myapplication/ui/onboarding/SurveyViewModel.kt:124-145 | The new state and file are `Submit` of the old ones |
| Survey.SurveyScreenViewModel.constructor | app/src/main/java/com/example/myapplication/ui/onboarding/SurveyScreen.kt:159-173 | The form starts empty, with `isComplete` set to the stored flag |
| Survey.SurveyScreenViewModel.CheckStartupStatus | app/src/main/java/com/example/myapplication/ui/onboarding/SurveyScreen.kt:170-173 | Copies only the stored flag into `isComplete` |
| Survey.SurveyScreenViewModel.OnHobbyChange | app/src/main/java/com/example/myapplication/ui/onboarding/SurveyScreen.kt:175-177 | Only `hobby` changes |
| Survey.SurveyScreenViewModel.OnGradeChange | app/src/main/java/com/example/myapplication/ui/onboarding/SurveyScreen.kt:179-181 | Only `grade` changes |
| Survey.SurveyScreenViewModel.OnCountryChange | app/src/main/java/com/example/myapplication/ui/onboarding/SurveyScreen.kt:183-185 | Only `country` changes |
| Survey.SurveyScreenViewModel.OnLikesChange | app/src/main/java/com/example/myapplication/ui/onboarding/SurveyScreen.kt:187-189 | Only `likes` changes |
| Survey.SurveyScreenViewModel.OnDislikesChange | app/src/main/java/com/example/myapplication/ui/onboarding/SurveyScreen.kt:191-193 | Only `dislikes` changes |
| Survey.SurveyScreenViewModel.SubmitSurvey | app/src/main/java/com/example/myapplication/ui/onboarding/SurveyScreen.kt:214-242 | The new state and file are `Submit` of the old ones, under the same three-field validation |
| Templates.RenderShowsArguments | app/src/main/java/com/example/myapplication/util/PromptFactory.kt:48-59 | Every interpolated value occurs in the rendered block, whatever the literal text |
| Templates.SectionsShow | app/src/main/java/com/example/myapplication/util/PromptFactory.kt:34-40 | Whatever occurs in one of the three sections occurs in the joined prompt |
| PromptFactory.IfBlank | app/src/main/java/com/example/myapplication/util/PromptFactory.kt:57-58 | A non-blank value is kept; with a non-blank fallback the result is never blank |
| PromptFactory.AvoidanceInstruction | app/src/main/java/com/example/myapplication/util/PromptFactory.kt:67-69 | The instruction is `""` exactly when dislikes is blank, and otherwise names the dislikes |
| PromptFactory.PersonaDefaults | app/src/main/java/com/example/myapplication/util/PromptFactory.kt:57-58 | Likes and dislikes never render blank; non-blank values appear verbatim |
| PromptFactory.PhaseSelectsItsTemplate | app/src/main/java/com/example/myapplication/util/PromptFactory.kt:89-133 | Each phase selects its own block, with the topic interpolated |
| PromptFactory.PhaseIgnoresHobbyCase | app/src/main/java/com/example/myapplication/util/PromptFactory.kt:86-87 | The phase block depends only on the lower-cased hobby |
| PromptFactory.PersonaKeepsHobbyCase | app/src/main/java/com/example/myapplication/util/PromptFactory.kt:47-80 | Persona and style use the hobby as typed, so different hobbies give different blocks |
| PromptFactory.SystemPromptMentions | app/src/main/java/com/example/myapplication/util/PromptFactory.kt:29-41 | The prompt names the grade, the country, the hobby as typed and lower-cased, the topic, and any non-blank dislikes |
| PromptFactory.DefaultTopicMentioned | app/src/main/java/com/example/myapplication/util/PromptFactory.kt:32 | Without a topic, the prompt is about "Mathematics" |
| PromptFactory.AssistantPromptMentions | app/src/main/java/com/example/myapplication/util/PromptFactory.kt:185-198 | The final prompt contains the system instruction built with the query as topic, and the query itself |
| PromptUtils.PersonaValuesAgree | app/src/main/java/com/example/myapplication/util/PromptUtils.kt:56-57 | The two personas show the same values if and only if neither likes nor dislikes is blank |
| PromptUtils.StyleValuesAgree | app/src/main/java/com/example/myapplication/util/PromptUtils.kt:65-79 | Both versions put the same values in the style section |
| PromptUtils.OnlyTasksIgnoresHobbyCase | app/src/main/java/com/example/myapplication/util/PromptUtils.kt:85-131 | The `TASKS` block depends only on the lower-cased hobby; the `SUMMARY` block keeps the case |
| PromptUtils.PhaseValuesAgreeOnLowerCase | app/src/main/java/com/example/myapplication/util/PromptUtils.kt:85-131 | For a lower-case hobby, both versions fill every phase block with the same values |
| PromptUtils.SystemPromptMentions | app/src/main/java/com/example/myapplication/util/PromptUtils.kt:28-40 | The prompt names every profile field as typed and the topic; the default topic is "Mathematics" |
| ChatInterface.FindIndex | components/ChatInterface.tsx:70 | `findIndex` returns the first index with the name, or -1 exactly when no file has it |
| ChatInterface.UpsertLookup | components/ChatInterface.tsx:70-71 | After an upsert the name finds the new file, and other names find what they found before |
| ChatInterface.UpsertPositions | components/ChatInterface.tsx:70-71 | An upsert keeps positions and names and replaces only the match; it grows by one exactly when the name is new |
| ChatInterface.MergeLookup | components/ChatInterface.tsx:68-73 | After the merge, a generated name finds the last file generated under it; other names are unaffected |
| ChatInterface.MergeKeepsPositions | components/ChatInterface.tsx:63-73 | Existing files keep position and name, and those not regenerated keep their content |
| ChatInterface.MergeAppendsNew | components/ChatInterface.tsx:71 | Distinct new names are appended in generated order |
| ChatInterface.MergeGenerated | components/ChatInterface.tsx:68-73 | The `forEach` loop computes `Merge` on a copy |
| ChatInterface.BuildRounds | components/ChatInterface.tsx:60-78 | For any answers in any round, the loop runs 1 to 5 rounds, the first prompt is the user's and later ones are "Continue building.", and fewer than 5 rounds means `COMPLETE` was seen |
| ChatInterface.CompleteAfterEmptyRound | components/ChatInterface.tsx:60-78 | The answer depends on the round, not only on the prompt and files: CONTINUE with no files in round 2, then COMPLETE in round 3, ends after three rounds with the files unchanged |
| ChatInterface.BuildStep | components/ChatInterface.tsx:66-77 | One round: generate, merge, report a step, then stop on `COMPLETE` or continue |
| ChatInterface.BuildMode | components/ChatInterface.tsx:59-78 | The `while` loop yields exactly the outcome `Build` specifies |
| ChatInterface.SendGuard | components/ChatInterface.tsx:47 | For every input: nothing is sent while loading or when the input is white space only with no attachments; when not loading, any attachment or any character that is not white space makes the message go out |
| ChatInterface.SendGuardExamples | components/ChatInterface.tsx:47 | " \t\n" alone is blocked, and " a" (leading white space, then text) is sent |
| ChatInterface.Chat.HandleSendStart | components/ChatInterface.tsx:46-53 | A blocked send changes nothing; otherwise the user message is appended, the input and attachments clear, and loading starts |

## Left out

- Floating-point arithmetic, `pow`, `sqrt`, the trigonometric functions, `Math.toRadians`, `toLong` saturation and `DecimalFormat("#.########")` rounding and locale. These are uninterpreted operations of `Arith<R>`, so every numeric result is stated up to those operations.
- SimpleCalculator.FormatResult: for a non-integral finite value the contract says only that the text is non-empty, because `DecimalFormat` is not modelled.
- `String.toDouble` is modelled only on the digit/dot runs the parser hands it, as the predicate "at most one dot and at least one digit".
- SimpleCalculator.Parser.Parse: a parse failure is an `Error` value carrying the character code, the name or the token. The exception message text is not modelled. `evaluate` turns every failure into `"Error"` either way.
- Stack overflow on very deep nesting is not modelled, because recursion depth is unbounded here.
- Text.Lower: only ASCII letters are lowered; the `Locale.ROOT` mapping of other letters is not modelled.
- The fixed wording of every `trimIndent` block (persona, style, phases, welcome, the student-question wrapper) is an opaque `Literals` parameter. Only the interpolated values, their order and the branching are modelled.
- Templates.RenderShowsArguments, PromptFactory.SystemPromptMentions, PromptFactory.AssistantPromptMentions, PromptUtils.SystemPromptMentions: these hold only for values without line breaks. Kotlin applies `trimIndent()` after interpolation, so a multi-line value (a `dislikes` answer, a multi-line query used as the topic) changes the indentation removed from the whole block, and its own continuation lines lose their leading spaces. The model renders with literal pieces that do not depend on the values, so it does not capture that re-indentation.
- Message ids, timestamps and `UUID`s in `ChatMessageUi` and the web `ChatMessage`.
- Learning.LearningViewModel.SendMessage: only the synchronous part is modelled. The asynchronous reply, its success message and the "Brain freeze!" error run in a coroutine; the model returns the request it would make instead.
- `MathRepository.getAssistantResponse`'s network call (`sendPrompt`) and every other network or LLM client. Only the prompt it sends is modelled.
- The folder-creation permission handlers (`onPermissionGranted`, `onPermissionDenied`) are not modelled, because they run in coroutines and call the file system. `folderCreated` is only carried along.
- Survey.SurveyViewModel.SubmitSurvey: the intermediate `isLoading = true` state, overwritten within the same call, is not modelled; only the final state is.
- Preferences.GetString: a value stored under a key with another type reads as the default here, where Android throws `ClassCastException`. No modelled operation writes such a value.
- In build mode these are not modelled: the "Thinking & Building..." placeholder message, the side effects of `onFilesGenerated` beyond the list of emitted file sets, the `"Error."` message of the `catch`, and the final `setIsLoading(false)`.
- The chat and search modes of `ChatInterface.tsx`, `localStorage` and `FileReader` are not modelled. They consist of network calls and browser storage.
- UI rendering in Compose and React is not modelled. Only the handlers the buttons call are.
