# Calculator: the expression state machine, in Dafny

This project models the core of a small Tkinter desktop calculator. The
`Calculator` object keeps two strings. The total expression is the committed
part of the arithmetic expression. The current expression is the operand being
typed. Four actions change them: a digit or point key, an operator key, clear
("C") and evaluate ("=" or Return). Evaluation hands `total + current` to
Python's `eval`. On success, current becomes the value's text and total is
emptied. On failure, current becomes `"Error"` and total keeps the whole
expression.

The model has four modules:

- `Keypad` (keypad.dfy): the digit keys, the operators, and the digit and
  operation tables. It proves that every key has exactly one grid cell and
  that the keys and operators type distinct one-character symbols.
- `Expression` (expression.dfy): the two strings as a value `ExprState`. It
  has one function per transition, `Step`, and `Run` over a sequence of
  actions. It proves what each transition does and what a whole typing session
  builds. `total ++ current` is every typed symbol in order. `total` ends with
  the last operator. `current` holds what was typed after that operator.
- `Presentation` (presentation.dfy): the two font tiers (`get_fonts`), the
  11-character view of the current expression, and the two display labels.
- `CalculatorApp` (calculator.dfy): the `Calculator` class. Its fields are
  updated in place by one method per transition. Each method is proved to
  keep the labels in step with the expressions and to move the state exactly
  as the matching `Expression` function does.

Python's `eval`, followed by `str()`, is a parameter of type
`Evaluator = string -> Option<string>`; `None` means that `eval` raised. So the
proofs cover the bookkeeping around evaluation, not the arithmetic. Where a
property needs Python's behaviour on the empty string (a `SyntaxError`), the
lemma requires `RejectsEmpty(eval)`.

## Model

| member | source | states |
|---|---|---|
| `Keypad.KeyText` | calculator.py:110-111 | `str()` of a keypad key is exactly one character |
| `Keypad.KeyTextShape` | calculator.py:110-111 | that character is the key's decimal digit for 0–9 and `"."` exactly for the point, so always a keypad character |
| `Keypad.KeyTextInjective` | calculator.py:35-40 | different keypad keys type different characters |
| `Keypad.DigitsCoverKeypad` | calculator.py:35-40 | the digit table has an entry for every key 0–9 and the point, all in rows 1–4 and columns 1–3 |
| `Keypad.DigitCellsDistinct` | calculator.py:35-40 | no two keys of the digit table share a grid cell |
| `Keypad.OpText` | calculator.py:42 | each operator's key symbol is exactly one character |
| `Keypad.OpTextShape` | calculator.py:42 | that symbol is one of `/ * - +` and never a keypad character |
| `Keypad.Glyph` | calculator.py:42 | an operator's button glyph is one character; it equals the key symbol exactly for "-" and "+", and is ÷ (U+00F7) for "/" and × (U+00D7) for "*" |
| `Keypad.OpTextInjective` | calculator.py:42 | different operators type different symbols |
| `Keypad.OperatorRow` | calculator.py:137-143 | the button loop places each operator in the row equal to its position in the operations table of line 42 (÷, ×, -, + from top to bottom) |
| `Expression.Enter` | calculator.py:110-111 | a key press leaves total unchanged; total + current grows by the key's text and current by exactly one character |
| `Expression.Commit` | calculator.py:125-128 | an operator leaves current empty, and total + current grows by exactly the operator's symbol |
| `Expression.Evaluated` | calculator.py:151-157 | if the evaluator accepts total + current, total becomes "" and the shown text is the result; if it raises, total keeps total + current and current is "Error" |
| `Expression.Step` | calculator.py:86-91 | one dispatched action (a key, an operator, "C" or "="; `Run` applies a sequence of them in order): a key or operator press appends its symbol to total + current, and a clear yields the empty state |
| `Expression.EnterEffect` | calculator.py:110-111 | a key press leaves total unchanged and appends exactly its one-character text to current |
| `Expression.CommitEffect` | calculator.py:125-128 | an operator sets total to old total + old current + operator and current to "" |
| `Expression.ClearIdempotent` | calculator.py:145-147 | clear yields two empty strings from any state, so clearing twice equals clearing once |
| `Expression.ClearForgetsHistory` | calculator.py:145-147 | whatever ran before a clear has no effect on any later state |
| `Expression.EvaluateSuccess` | calculator.py:151-155 | when the evaluator accepts total + current, current becomes its result and total becomes "" |
| `Expression.EvaluateFailure` | calculator.py:151-157 | when the evaluator raises, current becomes "Error" and total keeps total + current (it is not cleared) |
| `Expression.EvaluateAfterClear` | calculator.py:145-157 | evaluating the empty expression fails: current "Error", total "" |
| `Expression.TypingAfterError` | calculator.py:151-157 | after a failure the next key goes after "Error" while the stale total stays |
| `Expression.ChainAfterEvaluate` | calculator.py:125-155 | an operator after a successful evaluation gives total = result + operator and current = "" |
| `Expression.TypingAppends` | calculator.py:110-128 | with only key and operator presses, total ++ current grows by exactly the typed symbols, and the old total stays a prefix of the new one |
| `Expression.TypingFromEmpty` | calculator.py:110-128 | from the empty state, total is the symbols up to and including the last operator and current is the symbols after it |
| `Expression.TotalEndsWithLastOperator` | calculator.py:125-128 | after typing that includes an operator, total is the symbols typed before the last operator followed by that operator's symbol |
| `Expression.CurrentIsKeypadText` | calculator.py:110-111 | after typing from the empty state, current holds only digit and point characters |
| `Expression.NoNumberValidation` | calculator.py:110-111 | keys are appended without validation: two points in a row give current ".." |
| `Presentation.GetFonts` | calculator.py:67-70 | the small font set exactly when the size is "Small", the large set for any other value |
| `Presentation.SmallTierIsSmaller` | calculator.py:4-9 | each small-tier font is smaller than its large counterpart |
| `Presentation.Display` | calculator.py:114-115 | the shown text is a prefix of current, of length min(11, \|current\|) |
| `Presentation.DisplayWholeIff` | calculator.py:114-115 | current is shown whole exactly when it has at most 11 characters |
| `Presentation.DisplayIdempotent` | calculator.py:114-115 | truncating the shown text again changes nothing |
| `Presentation.DisplayFourteenDigits` | calculator.py:114-115 | "12345678901234" shows as "12345678901" |
| `Presentation.Shown` | calculator.py:114-115 | the labels as the updates leave them (total label at line 133): total verbatim in the small font, current as a prefix of at most 11 characters, in the display font of the selected size (lines 94-100) |
| `Presentation.ShownTextIgnoresTier` | calculator.py:114-115 | the label texts (current here, total at line 133) depend only on the expressions, never on the font size |
| `Presentation.RebuiltLabelsAsWritten` | calculator.py:93-101 | `create_display_labels` as written: the same total label and fonts as the refreshed labels, but the current label holds the whole current expression |
| `Presentation.RebuildAsWrittenAgreesIff` | calculator.py:93-101 | the labels rebuilt as written match the refreshed labels exactly when current has at most 11 characters |
| `Presentation.RebuildAsWrittenShowsUntruncated` | calculator.py:99 | with 14 digits typed, switching to "Small" shows all 14 instead of the 11 shown before |
| `CalculatorApp.Calculator.constructor` | calculator.py:24-33 | start-up: size "Large", both expressions empty, labels consistent |
| `CalculatorApp.Calculator.UpdateLabel` | calculator.py:114-115 | the current label's text becomes the first 11 characters of current; its font is kept |
| `CalculatorApp.Calculator.UpdateTotalLabel` | calculator.py:132-133 | the total label's text becomes the whole total; its font is kept |
| `CalculatorApp.Calculator.AddToExpression` | calculator.py:110-112 | current gains the key's text, total and size unchanged, labels consistent |
| `CalculatorApp.Calculator.AppendOperator` | calculator.py:125-130 | total gains old current + operator, current is "", labels consistent |
| `CalculatorApp.Calculator.Clear` | calculator.py:145-149 | both expressions become "", labels consistent |
| `CalculatorApp.Calculator.Evaluate` | calculator.py:151-160 | success: current = result, total = ""; failure: current = "Error", total = old total + current; labels refreshed on both paths |
| `CalculatorApp.Calculator.ReloadUi` | calculator.py:72-84 | the labels are rebuilt in the selected size's fonts and show the unchanged expressions, current cut to 11 characters |
| `CalculatorApp.Calculator.SelectFontSize` | calculator.py:64-84 | a font change never writes total or current, and both label texts are unchanged |
| `CalculatorApp.TwoPlusThree` | calculator.py:110-160 | "2" "+" "3" "=" with an evaluator giving "5" for "2+3" shows "5" and an empty total |
| `CalculatorApp.DivideByZero` | calculator.py:110-160 | "5" "/" "0" "=" with an evaluator that raises shows "Error" and total "5/0" |

## Left out

- The body of Python's `eval` and `str()` (calculator.py:154): `eval` is a general-purpose code evaluator with floating-point arithmetic. It is the `Evaluator` parameter. Nothing is proved about which expressions succeed or what text they produce. The evaluator is also taken to return at once: an expression such as `9**9**9`, typed as "9" "*" "*" "9" "*" "*" "9" "=", can keep Python's `eval` busy for a very long time and freeze the window, which the model does not capture.
- Window creation, frames, buttons, grid and pack layout, `rowconfigure`/`columnconfigure`, `OptionMenu`, `destroy` and `mainloop` (calculator.py:18-27, 43-65, 105-108, 117-123, 135-136, 162-175). These are toolkit plumbing. A label is modelled as its text and font. The buttons' fonts (`digits` and `controls` of a `FontSet`) are defined but no button is modelled.
- Key binding and the lambdas that dispatch events (calculator.py:86-91, 122, 141): a keystroke or click is a direct method call.
- Colour and geometry constants (calculator.py:11-15, 20): they have no behaviour to state.
- `add_to_expression` accepts any Python value. The model takes only the keypad keys, which are the only values its callers pass.
- `CalculatorApp.Calculator.ReloadUi`: rebuilds the current label from `Display(current)`, not from the whole current expression as calculator.py:99 does. See "## Findings".
- `CalculatorApp.Calculator.SelectFontSize`: its contract (both label texts unchanged by a font change) describes the corrected rebuild of `ReloadUi`. As written, calculator.py:99 puts the whole current expression on the rebuilt label, so the current label's text changes whenever current is longer than 11 characters. See "## Findings".
- Repeating the active font size still rebuilds the labels. In the model a rebuild produces the same labels again, so the repetition is not visible.
- A calculator operand is expected to hold at most one decimal point, but `add_to_expression` does not check this. The model follows the code (`Expression.NoNumberValidation`).

## Findings

| source | as written | input that shows it | evidently intended | confidence | as-written member | corrected member |
|---|---|---|---|---|---|---|
| calculator.py:99 | after a font-size change, `create_display_labels` gives the current label the whole `current_expression`, while every other refresh shows only `current_expression[:11]` (line 115) | type 14 digits, then choose "Small": the label shows "12345678901234" where it showed "12345678901" | a rebuilt label shows the same first 11 characters as before | medium, not executed | `Presentation.RebuildAsWrittenShowsUntruncated` | `CalculatorApp.Calculator.ReloadUi`, `CalculatorApp.Calculator.SelectFontSize` |
