# Scientific calculator: the sandboxed evaluator and the keypad state machine

This project is a Dafny model of the logic inside `new.py`, a Kivy scientific
calculator. It covers two parts.

**`SafeEval`, the expression evaluator.** It receives a Python expression
tree and walks it:

- numbers evaluate to themselves;
- binary and unary operators go through the fixed operator table;
- calls are allowed only to names in the name table;
- bare names are looked up in the name table, then in a variable map;
- every other node kind is rejected.

It guards `/` against a zero divisor. In degree mode it converts the
arguments of `sin`, `cos` and `tan` to radians, and the results of `asin`,
`acos` and `atan` to degrees. `eval_expr` first rewrites the glyphs `^`, `÷`
and `×`, then parses and evaluates. Any failure comes back as a text that
starts with `Error: `.

**`CalculatorLayout`, the keypad state.** It holds the expression being
typed, the history of recorded results, and the angle mode. Each button
press changes that state in one fixed way:

- clear, backspace and sign toggle;
- append a snippet;
- switch between `rad` and `deg`, keeping the evaluator's mode in step;
- `=`: evaluate, show the result, and record it unless the shown text
  starts with `Error:`. When `str` of the result raises, the handler raises
  before it changes anything.

The history list can be cleared. A history entry can be put back into the
expression. A history line is cut to 30 characters for display.

Layout of the Dafny modules:

| file | module | contents |
|---|---|---|
| `py_values.dfy` | `PyValues` | the Python values the evaluator meets, `== 0`, `str.startswith` |
| `syntax.dfy` | `Syntax` | the tree nodes `visit` tells apart; operator classes |
| `whitelist.dfy` | `Whitelist` | `ALLOWED_OPERATORS`; `ALLOWED_NAMES` built as `math`, then `cmath`, then the explicit entries |
| `glyphs.dfy` | `Glyphs` | the three chained `str.replace` calls of `eval_expr` |
| `safe_eval.dfy` | `SafeEvaluator` | `visit` (`Visit`, `VisitArgs`, `Dispatch`), `eval_expr` (`Evaluate`), the `SafeEval` class |
| `safe_eval_properties.dfy` | `SafeEvalProperties` | lemmas about the evaluator |
| `calculator.dfy` | `Calculator` | the button handler as a step function (`Next`, `Step`), the `CalculatorLayout` class |
| `calculator_properties.dfy` | `CalculatorProperties` | lemmas about the buttons |

**Foreign code as parameters.** The model does not contain code it cannot
see. The following come in through a `Runtime` value, as total functions
that either return or raise with a message:

- the parser (`ast.parse` in `eval` mode);
- the `operator` functions;
- calling an entry of the name table;
- `math.radians` and `math.degrees`;
- `str`.

`Visit` takes the name table as part of its context, and the `SafeEval`
class always supplies `AllowedNames`. The variable map is read-only, because
nothing in the program writes it.

`CalculatorLayout.Press` is proved against the pure step function `Next`,
which gives either the new screen or the exception the handler raises.
Its postcondition says that the new expression, history and mode are
`Next` of the old ones, or that nothing changed and `Press` reports the
same exception. It also says that the invariant `Valid()` holds:

- the mode is `rad` or `deg`;
- the evaluator's mode equals the layout's;
- every history entry is an evaluated value, stored as the text `str`
  gives for it, and that text does not start with `Error:`.

## Model

| member | source | states |
|---|---|---|
| PyValues.IsZero | new.py:55 | Python's `right == 0`: true for `0`, `False`, `0.0`, `-0.0` and `0j`; false for NaN, infinities, function objects, `None` and other objects |
| PyValues.StartsWith | new.py:329 | `str.startswith`, used for the history test here and for the `startswith('a')` test at new.py:68 |
| PyValues.StartsWithShorterPrefix | new.py:329 | a text that starts with `Error: ` also starts with `Error:`, the prefix the history test uses |
| PyValues.StartsWithConcat | new.py:89 | `"Error: " + message` starts with `Error: ` for every message |
| Syntax.ClassName | new.py:57 | the class name in the `<class 'ast.…'>` text of the `KeyError` that a missing operator class raises, here and at new.py:59 |
| Whitelist.ModuleNames | new.py:25-26 | one module's public names: each function under its qualified name, then the constants over them |
| Whitelist.TrigNames | new.py:67 | the six names the degree-mode policy applies to |
| Whitelist.AllowedOperators | new.py:33-38 | the eight operator classes and their `operator` functions |
| Whitelist.AllowedNames | new.py:25-31 | the public names of `math`, updated by those of `cmath`, updated by the explicit entries |
| Whitelist.ModuleNamesLookup | new.py:25-26 | a module contributes exactly its public functions (under their qualified names) and its constants; a constant shadows a function of the same name |
| Whitelist.ModuleFunctionWins | new.py:25-31 | with `dict.update` layering, a middle layer's function that no later layer and no constant of its module defines is the value in the final table |
| Whitelist.ExplicitEntryWins | new.py:27-31 | a name written out in the explicit entries resolves to that entry, whatever `math` and `cmath` hold |
| Whitelist.CmathFunctionWins | new.py:25-31 | a `cmath` function that neither a `cmath` constant nor an explicit entry redefines resolves to the `cmath` function, overriding `math` |
| Whitelist.TrigNamesResolveToCmath | new.py:25-31 | all six trigonometric names resolve to the `cmath` functions, not the `math` ones |
| Whitelist.OnlyNegationIsUnary | new.py:33-38 | of the unary operator classes only `USub` is in the operator table, and it is the only class mapped to `neg` |
| Whitelist.ForwardTrigIsTrig | new.py:67-68 | `sin`, `cos` and `tan` are degree-mode names that do not start with `a` |
| Whitelist.InverseTrigIsTrig | new.py:67-68 | `asin`, `acos` and `atan` are degree-mode names that start with `a` |
| Glyphs.NormalizeGlyphs | new.py:86 | the chain `^`→`**`, then `÷`→`/`, then `×`→`*` |
| Glyphs.ReplaceAll | new.py:86 | replacing a glyph by text without it leaves no glyph; text without the glyph is unchanged |
| Glyphs.ReplaceAllIntroducesOnly | new.py:86 | every character of the result is a non-glyph character of the input or comes from the replacement |
| Glyphs.ReplaceAllConcat | new.py:86 | replacing a one-character glyph distributes over concatenation |
| Glyphs.NormalizedHasNoGlyphs | new.py:86 | after the three replacements, no `^`, `÷` or `×` is left |
| Glyphs.NormalizeIdempotent | new.py:86 | normalizing twice is normalizing once |
| Glyphs.NoGlyphsUnchanged | new.py:86 | text without the three glyphs passes through unchanged |
| Glyphs.ChainedPassesAreOnePass | new.py:86 | the three chained passes equal a one-pass rewriting of each character on its own, so no pass sees text that an earlier pass produced |
| Glyphs.EachCharConcat | new.py:86 | the one-pass rewriting distributes over concatenation |
| Glyphs.NormalizeConcat | new.py:86 | normalization distributes over concatenation |
| Glyphs.NormalizeOneChar | new.py:86 | a single character normalizes to its glyph text (`**`, `/`, `*` or itself) |
| Glyphs.DivideTimesExample | new.py:86 | `6÷2×(1+2)` normalizes to `6/2*(1+2)` |
| Glyphs.AsciiExampleUnchanged | new.py:86 | `6/2*(1+2)` is left as it is |
| SafeEvaluator.Message | new.py:53-82 | the `str` of each exception `visit` raises: `Division by zero`, `Function … not allowed`, `Name '…' is not defined`, `Unsupported operation`, the `KeyError` of a missing operator class, or the runtime's own message |
| SafeEvaluator.Visit | new.py:47-82 | `visit`: one case per node kind, the first exception ends the walk; its properties are the `SafeEvalProperties` lemmas |
| SafeEvaluator.VisitArgs | new.py:65 | the argument list, left to right, stopping at the first exception |
| SafeEvaluator.Dispatch | new.py:67-73 | the call of an allowed entry, with the degree-mode conversions around the six trigonometric names |
| SafeEvaluator.Lift | new.py:73 | the definition: a foreign call's return becomes success with that value, and its exception a failure carrying its message |
| SafeEvaluator.RadiansAll | new.py:72 | converting the argument list succeeds exactly when every argument converts, and gives the converted values in order |
| SafeEvaluator.Evaluate | new.py:84-89 | `eval_expr` is total: a failure is always a text starting with `Error: `; a value comes back exactly when parsing and visiting both succeed |
| SafeEvaluator.SafeEval.constructor | new.py:40-42 | a new evaluator has the given mode (by default `rad`) and an empty variable map |
| SafeEvaluator.SafeEval.SetMode | new.py:44-45 | `set_mode` sets the mode and changes nothing else |
| SafeEvaluator.SafeEval.EvalExpr | new.py:84-89 | `eval_expr` evaluates with the object's current mode and variables and the fixed name table; failures start with `Error: ` |
| SafeEvalProperties.ArgumentsAllOrFirstError | new.py:65 | the argument list succeeds exactly when every argument does, with their values in order; otherwise it fails with the first failing argument's error, all earlier ones having succeeded |
| SafeEvalProperties.NameResolution | new.py:74-80 | a name resolves to the table entry if there is one (a variable cannot shadow it), else to the variable, else fails with `Name '…' is not defined` |
| SafeEvalProperties.BinOpOperandOrder | new.py:52-54 | the left operand is visited first, then the right; the first failure is the node's failure |
| SafeEvalProperties.BinOpDispatch | new.py:55-57 | with both operands evaluated, the result is "Division by zero" exactly when the operator is `/` and the right value equals 0; otherwise it is the table operator applied to both values, or a `KeyError` when the class is missing from the table |
| SafeEvalProperties.UnaryOpDispatch | new.py:58-59 | unary `+`, `~` and `not` fail with a `KeyError` before the operand is visited; unary minus applies `neg` to the operand's value, or passes on the operand's failure |
| SafeEvalProperties.OtherNodesUnsupported | new.py:81-82 | every other node kind fails with "Unsupported operation" |
| SafeEvalProperties.CallRejected | new.py:60-62 | a callee that is not a name in the table is rejected with "Function … not allowed" before any argument is visited; a non-name callee is reported as `unknown` |
| SafeEvalProperties.KeywordsIgnored | new.py:60-73 | keyword arguments neither change nor fail a call |
| SafeEvalProperties.CallArgumentsStrict | new.py:64-65 | an allowed call evaluates all its arguments before dispatch; a failing argument fails the call with that argument's error |
| SafeEvalProperties.NoConversion | new.py:67-73 | unless the mode is exactly `deg` and the name is one of the six trigonometric ones, the entry is called on the argument values unchanged |
| SafeEvalProperties.ForwardTrigConvertsArguments | new.py:71-73 | in degree mode, `sin`, `cos` and `tan` are called on the radian conversions of all their arguments |
| SafeEvalProperties.ForwardTrigConversionFailure | new.py:72 | in degree mode, a failing argument conversion fails the call |
| SafeEvalProperties.InverseTrigConvertsResult | new.py:68-70 | in degree mode, `asin`, `acos` and `atan` are called on the values unchanged and their result is converted to degrees; `None` passes through |
| SafeEvalProperties.OnlyDegModeConverts | new.py:67 | any two modes other than `deg` give every tree the same result |
| SafeEvalProperties.OnlyDegModeConvertsArgs | new.py:65-67 | the same for argument lists |
| SafeEvalProperties.OnlyReadVariablesMatter | new.py:74-78 | a tree's result depends on the variables only through the names it visits that the table does not define |
| SafeEvalProperties.OnlyReadVariablesMatterArgs | new.py:65 | the same for argument lists |
| SafeEvalProperties.CmathInverseTrigFailsInDegreeMode | new.py:68-70 | in degree mode, an inverse trigonometric call whose entry is a `cmath` function always fails, given that `cmath` returns `complex` and `math.degrees` rejects `complex` |
| SafeEvalProperties.InverseTrigFailsInDegreeMode | new.py:67-70 | with the program's own table, `asin`, `acos` and `atan` always fail in degree mode, under the same two runtime facts |
| SafeEvalProperties.EvaluateSeesNormalizedText | new.py:86-87 | texts that normalize alike evaluate alike |
| SafeEvalProperties.EvaluateIgnoresPriorNormalization | new.py:86 | normalizing the text before `eval_expr` changes nothing |
| SafeEvalProperties.GlyphsEvaluateAsOperators | new.py:86 | `6÷2×(1+2)` evaluates exactly as `6/2*(1+2)` |
| SafeEvalProperties.EvaluateOutcomes | new.py:84-89 | a parse failure gives `Error: ` and the parser's message; a visit failure gives `Error: ` and the exception's message; success gives the value |
| Calculator.KeyOf | new.py:320-360 | exactly the labels other than `C`, `⌫`, `=`, `mode` and `±` append text, and what they append is their snippet |
| Calculator.DropLast | new.py:322-323 | `⌫` removes exactly one character from a non-empty text, leaving a prefix, and leaves an empty text empty |
| Calculator.NextMode | new.py:333 | the next mode is always `rad` or `deg`, and differs from the current one when that is `rad` or `deg` |
| Calculator.Upper | new.py:336 | upper-casing keeps the length, shifts `a`–`z` to capitals and leaves other characters alone |
| Calculator.Snippet | new.py:343-360 | the text each appending button adds: `**2`, `**3`, `sqrt(`, `sin(`/`cos(`/`tan(`, `pi`, `e`, `/`, `*`, or the label itself |
| Calculator.ToggleSign | new.py:338-342 | `±`: drop a leading minus, or put one in front |
| Calculator.ModeBanner | new.py:336 | the display text `Mode: ` followed by the mode in capitals |
| Calculator.Shown | new.py:326 | `str(result)`: an error text is itself; a value goes through the runtime's `str`, which may raise |
| Calculator.Edit | new.py:320-360 | what `C`, `⌫`, `±` and the appending buttons do to the expression |
| Calculator.Commit | new.py:324-330 | `=` raises exactly when `str` of an evaluated value raises; when it returns, it keeps the mode, and either keeps the history or extends it by one entry at the end |
| Calculator.Step | new.py:320-360 | only `=` can raise or change the history, only by appending one entry; only `mode` changes the mode |
| Calculator.Next | new.py:317-362 | the handler as a function of the label: `Step` of the label's `KeyOf` |
| Calculator.StepKeepsWellFormed | new.py:324-336 | every key that returns keeps the invariant: the mode stays `rad` or `deg`, and every entry is an evaluated value whose `str` is its shown text, which does not start with `Error:` |
| Calculator.HistoryLabel | new.py:187-189 | a history line is at most 30 characters; a text of up to 30 is shown whole; a longer one keeps its first 27 characters and ends in `...` |
| Calculator.CalculatorLayout.constructor | new.py:225-231 | a new layout has an empty expression, no history, mode `rad`, and a fresh evaluator in mode `rad` |
| Calculator.CalculatorLayout.Press | new.py:317-362 | a press moves the state exactly as `Next` says; when `Next` raises, the press reports that exception and nothing changes; the invariant holds, including evaluator mode equal to layout mode |
| Calculator.CalculatorLayout.ClearHistory | new.py:157-158 | `clear_history` empties the calculator's own history list, which the popup shares |
| Calculator.CalculatorLayout.ReuseHistoryEntry | new.py:384-385 | the expression becomes the given text and nothing else changes; `HistoryPopup.reuse_entry` (new.py:161-163) does the same to the layout it belongs to, apart from the display and closing the popup |
| CalculatorProperties.EqualsRecordsOnlySuccesses | new.py:324-330 | `=` raises exactly when `str` of an evaluated value raises, with that message; otherwise it shows `str` of the result and keeps the mode, and appends (shown text, result) exactly when the result is a value whose text does not start with `Error:`, else leaves the history as it was |
| CalculatorProperties.FailureShowsErrorText | new.py:324-330 | after a failed evaluation the expression starts with `Error: ` and neither the history nor the mode changes |
| CalculatorProperties.ModeBanners | new.py:336 | the banners are `Mode: DEG` and `Mode: RAD` |
| CalculatorProperties.ModeButtonToggles | new.py:332-336 | `mode` never raises, switches `rad` and `deg`, shows the new mode in capitals, keeps the history, and a second press restores the mode and shows its banner |
| CalculatorProperties.SignTwiceRestores | new.py:338-342 | `±` twice restores the whole state when the expression does not start with `--` |
| CalculatorProperties.SignOnDoubleMinus | new.py:338-342 | on an expression starting with `--`, two presses of `±` remove both minus signs and change nothing else |
| CalculatorProperties.BackspaceUndoesOneCharacter | new.py:322-323 | `⌫` right after a button that appends one character restores the whole state |
| CalculatorProperties.ClearEmpties | new.py:320-321 | `C` empties the expression and keeps history and mode |
| CalculatorProperties.AppendAddsSnippet | new.py:343-360 | every button other than `C`, `⌫`, `=`, `mode` and `±` appends its snippet to the expression and changes nothing else |
| CalculatorProperties.SnippetHasNoGlyphs | new.py:343-360 | no label without glyphs appends `^`, `÷` or `×`, and neither do `÷` and `×` |
| CalculatorProperties.KeypadAgreesWithNormalization | new.py:355-358 | the `÷` and `×` buttons append what `eval_expr` would rewrite those glyphs to |
| CalculatorProperties.EditKeepsNoGlyphs | new.py:320-342 | `C`, `⌫`, `±` and glyph-free appends keep the expression free of glyphs |
| CalculatorProperties.TypingKeepsExpressionAscii | new.py:320-360 | every key but `=` keeps a glyph-free expression glyph-free, so `=` evaluates exactly the text typed |

## Left out

- The Kivy presentation is not modelled. This covers the widgets, the
  display and mode-label texts, colours, the button grid, animations and
  `Clock` timers, `HistoryItem` apart from the 30-column rule,
  `HistoryPopup` apart from `clear_history` (modelled as
  `CalculatorLayout.ClearHistory`, because the popup clears the layout's
  own list) and `reuse_entry` (modelled as
  `CalculatorLayout.ReuseHistoryEntry`, which sets only the expression, as
  both `reuse_entry` and `reuse_history_entry` do), and `CalculatorApp`. The display always shows the expression.
- `ast.parse` is not part of this model: parsing is the `parse` function of
  the `Runtime`. It decides which literals become `Num` nodes. In Python
  3.8–3.11, `int`, `float` and `complex` constants become `Num`, while
  `True`, `None` and strings arrive as other nodes.
- The numeric behaviour of the operators, the table's functions,
  `math.radians`, `math.degrees` and `str` is not modelled. Each is an
  uninterpreted function of the `Runtime` that returns an `Outcome`: a value
  or an exception. `str` is a function, so the second `str(result)` at
  new.py:329 gives the same text as the first. Floating-point rounding is not
  modelled either: a `float` is a real, an infinity or a NaN.
- The name table lists `dir(math)` and `dir(cmath)` as of Python 3.11.
  Other Python versions add or drop names.
- Python's recursion limit is not modelled. On a deeply nested tree, `visit`
  would raise `RecursionError`, which `eval_expr` would turn into an error
  text. `Visit` has no depth limit.
- Nothing writes `variables`, so the model has no way to set a variable.
- Upper: only `a`–`z` are upper-cased, as Python's `str.upper` does for
  ASCII. The function is only applied to `rad` and `deg`.
- InverseTrigFailsInDegreeMode and CmathInverseTrigFailsInDegreeMode: these
  are stated under two facts about Python's runtime, because complex
  arithmetic is not modelled. The facts are that `cmath.asin`, `cmath.acos`
  and `cmath.atan` return a `complex` whenever they return, and that
  `math.degrees` rejects a `complex`.
- SignTwiceRestores: this holds only for expressions that do not start with
  `--`. The `±` button removes one leading minus at a time, and
  SignOnDoubleMinus states that case.
- The program has no arity checks: a wrong argument count fails with
  whatever the called function raises.
- `eval_expr` reports errors as texts behind `Error: `, not as a structured
  result.
- Names that both `math` and `cmath` define, such as `sin`, `asin` and
  `exp`, are the `cmath` versions, because `cmath` is merged over `math`.
  The explicit entries then put back `math.sqrt`, `math.log` and
  `math.log10`, and make `pi` and `e` the `math` floats.
