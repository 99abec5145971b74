# Interactive calculator: a Dafny model

This project models the core of a small command-line calculator written in
Python (`calculator.py`). The calculator keeps a running result and a history
of past calculations. It evaluates `+`, `-`, `*` and `/` either on two fresh
operands or, in continuation mode, on the previous result and one new operand.
A line-classifier (`parse_input`) turns each input line into an action.

- `wrappers.dfy` (module `Wrappers`): the `Option` type that stands for Python's `None`.
- `calculator.dfy` (module `Calc`): the operators and their dispatch table,
  the four arithmetic operations, `Step` (the specification of one
  `calculate` call on a state value), the class `Calculator` with the fields
  `result` and `history` whose methods are proved against `Step`, and the
  `show_history` window.
- `calculator_session.dfy` (module `CalcSession`): sequences of `calculate`
  and `reset` calls and the invariants they keep. History is append-only
  between resets. The result always equals the value of the latest record, or
  zero when the history is empty.
- `ascii_text.dfy` (module `AsciiText`): the string built-ins `parse_input` uses
  (`strip`, `lower`, `split`), over ASCII.
- `input_parser.dfy` (module `InputParser`): `parse_input`, with the number
  parser `float` passed in as a partial function `string -> Option<real>`.

Numbers are Dafny `real`s and `/` is exact division. A history record is the
value `Entry(lhs, op, rhs, value)` rather than the formatted text. Errors are
returned as `Err(DivisionByZero)` or `Err(UnsupportedOperator(s))` where the
source prints a message and returns `None`.

## Model

| member | source | states |
|---|---|---|
| `Calc.LookupOp` | calculator.py:16-21 | a symbol is found exactly when it is one of `+ - * /`, and the operator found is registered under that symbol |
| `Calc.LookupSymbol` | calculator.py:16-21 | every operator is found again under its own symbol |
| `Calc.Add` | calculator.py:23-25 | subtracting `y` from the sum gives back `x` |
| `Calc.Subtract` | calculator.py:27-29 | adding `y` to the difference gives back `x` |
| `Calc.Multiply` | calculator.py:31-33 | for a non-zero `y` the product divided by `y` is `x`; for `y == 0` the product is zero |
| `Calc.Divide` | calculator.py:35-39 | fails with DivisionByZero exactly when `y == 0`; otherwise the quotient times `y` is `x` |
| `Calc.Apply` | calculator.py:16-21 | applying an operator of the table fails only for `/` by zero, and then with DivisionByZero |
| `Calc.Step` | calculator.py:41-62 | a failed call leaves result and history unchanged; a successful one sets the result to the returned value and appends exactly one record holding that value, keeping all older records |
| `Calc.FreshMode` | calculator.py:49-57 | with two operands, `+ - *` and a non-zero `/` return the arithmetic result, store it and append the record `x op y = value` |
| `Calc.ContinuationMode` | calculator.py:45-57 | with one operand, for each of `+ - *` and a non-zero `/`, the previous result is the LEFT operand (`result - x`, `result / x`): the outcome, the new result and the appended record `result op x = value` |
| `Calc.DivisionByZeroKeepsState` | calculator.py:35-62 | `/` by zero fails with DivisionByZero in both modes and leaves the state exactly as before |
| `Calc.UnsupportedKeepsState` | calculator.py:58-62 | an operator outside the table fails with UnsupportedOperator whatever the operands and leaves the state exactly as before |
| `Calc.StepFailsIff` | calculator.py:41-62 | a call fails if and only if the operator is unknown or it is `/` with a zero right operand |
| `Calc.Window` | calculator.py:85 | `history[-10:]`: the last `min(10, |h|)` records, as a suffix of the history |
| `Calc.Calculator.constructor` | calculator.py:13-15 | a new calculator has result 0 and no history |
| `Calc.Calculator.Calculate` | calculator.py:41-62 | the returned outcome and the new fields are those of `Step` on the old fields: unchanged on error; on success the result is the value and exactly one record is appended after the old ones |
| `Calc.Calculator.Reset` | calculator.py:64-67 | afterwards the result is 0 and the history is empty, whatever the state before |
| `Calc.Calculator.GetResult` | calculator.py:69-71 | returns the current result |
| `Calc.Calculator.GetHistory` | calculator.py:73-75 | returns the current history |
| `Calc.Calculator.ShowHistory` | calculator.py:77-90 | the empty notice exactly when there is no history; otherwise the last `min(10, |h|)` records in their original order, numbered 1..k, and the total count exactly when there are more than 10 records |
| `Calc.TestScriptValues` | test_calculator.py:14-52 | from the class contracts alone: 5+3=8, 10-4=6, 7*6=42, 15/3=5; after a reset, 10+5 then `* 2` gives 30; 10/0 fails with DivisionByZero; after a reset the result is 0 |
| `CalcSession.InitialConsistent` | calculator.py:13-15 | a new calculator satisfies the result/history invariant |
| `CalcSession.PerformKeepsConsistent` | calculator.py:41-67 | one `calculate` or `reset` call keeps the invariant that the result is the latest record's value, or 0 with an empty history |
| `CalcSession.RunKeepsConsistent` | calculator.py:41-67 | any sequence of calls keeps that invariant |
| `CalcSession.ReachableConsistent` | calculator.py:13-67 | every state a new calculator can reach satisfies that invariant |
| `CalcSession.HistoryAppendOnly` | calculator.py:54-62 | without a reset the old history stays a prefix of the new one, and it grows by exactly the number of successful calls |
| `CalcSession.ResetForgets` | calculator.py:64-67 | any sequence of calls followed by a reset ends in the initial state |
| `AsciiText.Strip` | calculator.py:109 | `strip()`: the result has no whitespace at either end and is a slice of the line with only whitespace around it |
| `AsciiText.ToLower` | calculator.py:109 | `lower()`: same length, every letter `A..Z` becomes the letter 32 code points later (`a..z`), every other character is kept, so no upper-case letter is left |
| `AsciiText.Split` | calculator.py:121 | `split()`: every token is non-empty and free of whitespace |
| `AsciiText.SplitAround` | calculator.py:121 | `split()` separates at any non-empty run of whitespace (tabs, several spaces): the tokens of `a + ws + b` are those of `a` followed by those of `b` |
| `AsciiText.SplitJoin` | calculator.py:121 | splitting tokens joined by single spaces gives the tokens back |
| `AsciiText.SplitEmpty` | calculator.py:121 | a line has no tokens exactly when it is all whitespace |
| `AsciiText.SingleToken` | calculator.py:109-121 | a stripped line with one token is that token |
| `InputParser.Normalize` | calculator.py:109 | the normalised line is the lower-cased slice of the line that has only whitespace around it, with no whitespace at its own ends and no upper-case letter |
| `InputParser.ParseInput` | calculator.py:107-142 | a calculation's operator is a single whitespace-free token |
| `InputParser.OperatorLowerCase` | calculator.py:109-138 | a calculation's operator is lower-case |
| `InputParser.KeywordIffSingleToken` | calculator.py:111-121 | on a stripped line, equal to a keyword if and only if that keyword is its only token |
| `InputParser.ClassifyKeywords` | calculator.py:111-118 | `quit`/`q`/`exit`, `reset` and `history` are recognised exactly when they are the line's single token |
| `InputParser.ClassifyCalculations` | calculator.py:121-140 | continuation exactly for two tokens whose second parses, new calculation exactly for three tokens whose first and third parse, with those operands and the operator token as is |
| `InputParser.ParseByTokens` | calculator.py:107-142 | the whole decision tree on the tokens of the normalised line, including that every other line (wrong count, failed parse) is malformed input |
| `InputParser.BlankIsError` | calculator.py:107-142 | a blank line is malformed input |
| `InputParser.ContinueRoundTrip` | calculator.py:121-130 | `op num` with any lower-case operator token parses back as a continuation with that operator and the parsed number: the operator is not validated |
| `InputParser.NewRoundTrip` | calculator.py:132-140 | `a op b` parses back as a new calculation with that operator and both parsed numbers |

## Left out

- `main` (calculator.py:145-187): the terminal loop, its prompts, `input()`, `sys.exit(0)` and the display of the result before each prompt. It skips blank lines before parsing (calculator.py:157-158); this is not modelled. `InputParser.BlankIsError` states what `parse_input` itself returns on such a line. Its success line for a continuation (calculator.py:181) prints the already-updated result as the left operand; this is display only and is not modelled.
- `print_menu` (calculator.py:93-104): console output only.
- Message texts: the printed error in `calculate` (calculator.py:61), the history heading, separators and the `{i:2d}` padding of `show_history`. A history record is a value, not its f-string rendering, so `5.0` versus `5` is not modelled.
- Floating point: numbers are exact reals, so IEEE rounding, infinities and NaN are not modelled. Python's distinction between the initial integer `0` and floats is not modelled either.
- `float()`: it is a parameter `string -> Option<real>`, so which texts it accepts is not modelled.
- Unicode: `strip`, `split` and `lower` are modelled on ASCII only. Whitespace is the characters 9-13, 28-31 and 32, which are the ASCII characters Python's `str.isspace` accepts. Non-ASCII whitespace and non-ASCII case mapping are not modelled.
- `Calc.Calculator.GetHistory`: Python returns the list object itself, so a caller could mutate the history through it. The model returns a sequence value, so that aliasing is not modelled.
- `Calc.Apply`: its own contract states only when it fails. The values it computes are stated by `Calc.FreshMode` and `Calc.ContinuationMode`.
- `calculate` operand types: Python accepts any object that supports the operators. The model accepts reals only.
