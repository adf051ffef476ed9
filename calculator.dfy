/** The calculator screen (`CalculatorLayout`): the expression being typed,
    the history of successful evaluations and the angle mode, and what each
    keypad button does to them. Widgets, colours and animations are left
    out; the display always shows the expression. */
module Calculator {
  import opened PyValues
  import opened Whitelist
  import opened Glyphs
  import opened SafeEvaluator

  /** What a button press does, decided from the button's label. */
  datatype Key =
    | Clear
    | Backspace
    | Equals
    | ToggleMode
    | Sign
    | Append(snippet: string)

  /** The text a button appends to the expression: powers become `**`, the
      square root and the three trigonometric buttons open a call, `π`
      becomes `pi`, `÷` and `×` become `/` and `*`, anything else is itself. */
  function Snippet(button: string): string {
    if button == "x²" then "**2"
    else if button == "x³" then "**3"
    else if button == "√" then "sqrt("
    else if button in ["sin", "cos", "tan"] then button + "("
    else if button == "π" then "pi"
    else if button == "e" then "e"
    else if button == "÷" then "/"
    else if button == "×" then "*"
    else button
  }

  /** The tests of the press handler, in their order: five labels have
      their own action, every other button appends its snippet. */
  function KeyOf(button: string): (k: Key)
    ensures k.Append? <==> button !in ["C", "⌫", "=", "mode", "±"]
    ensures k.Append? ==> k.snippet == Snippet(button)
  {
    if button == "C" then Clear
    else if button == "⌫" then Backspace
    else if button == "=" then Equals
    else if button == "mode" then ToggleMode
    else if button == "±" then Sign
    else Append(Snippet(button))
  }

  /** `s[:-1]`: the text without its last character; empty stays empty. */
  function DropLast(s: string): (r: string)
    ensures |r| == if s == [] then 0 else |s| - 1
    ensures r <= s
  {
    if s == [] then [] else s[..|s| - 1]
  }

  /** The `±` button: drop a leading minus sign, or put one in front. */
  function ToggleSign(s: string): string {
    if |s| > 0 && s[0] == '-' then s[1..] else "-" + s
  }

  /** The `mode` button's next mode: `deg` after `rad`, `rad` after anything else. */
  function NextMode(mode: string): (m: string)
    ensures m == "rad" || m == "deg"
    ensures m != mode || (mode != "rad" && mode != "deg")
  {
    if mode == "rad" then "deg" else "rad"
  }

  /** `str.upper` on the letters `a` to `z`. */
  function Upper(s: string): (r: string)
    ensures |r| == |s|
    ensures forall i :: 0 <= i < |s| ==> ('a' <= s[i] <= 'z' ==> r[i] as int == s[i] as int - 32)
    ensures forall i :: 0 <= i < |s| ==> (!('a' <= s[i] <= 'z') ==> r[i] == s[i])
  {
    if s == [] then []
    else
      var c := if 'a' <= s[0] <= 'z' then (s[0] as int - 32) as char else s[0];
      [c] + Upper(s[1..])
  }

  /** The text the display shows after a mode change. */
  function ModeBanner(mode: string): string {
    "Mode: " + Upper(mode)
  }

  /** `str(result)` of what `eval_expr` returned: an error text is already a
      string; a value goes through the runtime's `str`, which may raise. */
  function Shown(rt: Runtime, out: EvalOutcome): Outcome<string> {
    match out
    case Evaluated(v) => rt.str(v)
    case Failed(text) => Returns(text)
  }

  /** A history entry: the text shown after `=` and the raw result. */
  datatype Entry = Entry(text: string, result: EvalOutcome)

  /** An entry as `=` records it: a value, the text `str` shows for it, and
      a text that does not start with `Error:`. */
  predicate Recorded(rt: Runtime, e: Entry) {
    e.result.Evaluated? && rt.str(e.result.value) == Returns(e.text) && !StartsWith(e.text, "Error:")
  }

  /** The state the press handler reads and writes. */
  datatype Screen = Screen(expression: string, history: seq<Entry>, mode: string)

  /** The state invariant: a known mode and only recorded entries. */
  predicate WellFormed(rt: Runtime, s: Screen) {
    && (s.mode == "rad" || s.mode == "deg")
    && forall i :: 0 <= i < |s.history| ==> Recorded(rt, s.history[i])
  }

  /** What an editing key (`C`, `⌫`, `±` or an appending button) does to
      the expression; the other keys leave it to `Step`. */
  function Edit(expression: string, key: Key): string {
    match key
    case Clear => ""
    case Backspace => DropLast(expression)
    case Sign => ToggleSign(expression)
    case Append(snippet) => expression + snippet
    case _ => expression
  }

  /** `=`: evaluate the expression in the screen's mode, show `str` of the
      result, and record it unless the shown text starts with `Error:`.
      When `str` raises, the handler raises before it assigns anything. */
  function Commit(rt: Runtime, variables: map<string, Value>, s: Screen): (r: Outcome<Screen>)
    ensures var out := Evaluate(Context(rt, AllowedNames, s.mode, variables), s.expression);
      r.Raises? <==> out.Evaluated? && rt.str(out.value).Raises?
    ensures r.Returns? ==> s.history <= r.value.history && |r.value.history| <= |s.history| + 1
    ensures r.Returns? ==> r.value.mode == s.mode
  {
    var out := Evaluate(Context(rt, AllowedNames, s.mode, variables), s.expression);
    match Shown(rt, out)
    case Raises(m) => Raises(m)
    case Returns(shown) =>
      Returns(Screen(shown, if StartsWith(shown, "Error:") then s.history else s.history + [Entry(shown, out)], s.mode))
  }

  /** What a key does to the screen, with the evaluator's runtime and
      variables: the new screen, or the exception the handler raises. Only
      `=` can raise or touch the history, and then only by one entry at the
      end; only `mode` changes the mode. */
  function Step(rt: Runtime, variables: map<string, Value>, s: Screen, key: Key): (r: Outcome<Screen>)
    ensures r.Raises? ==> key == Equals
    ensures r.Returns? ==> s.history <= r.value.history && |r.value.history| <= |s.history| + 1
    ensures r.Returns? && r.value.history != s.history ==> key == Equals
    ensures r.Returns? && r.value.mode != s.mode ==> key == ToggleMode
  {
    match key
    case Equals => Commit(rt, variables, s)
    case ToggleMode =>
      var m := NextMode(s.mode);
      Returns(Screen(ModeBanner(m), s.history, m))
    case _ => Returns(s.(expression := Edit(s.expression, key)))
  }

  /** Every key keeps the state invariant: the mode stays `rad` or `deg`,
      and `=` appends only an entry that is recorded. */
  lemma StepKeepsWellFormed(rt: Runtime, variables: map<string, Value>, s: Screen, key: Key)
    requires WellFormed(rt, s)
    ensures Step(rt, variables, s, key).Returns? ==> WellFormed(rt, Step(rt, variables, s, key).value)
  {
    var o := Step(rt, variables, s, key);
    if o.Returns? {
      var r := o.value;
      if key == Equals {
        var out := Evaluate(Context(rt, AllowedNames, s.mode, variables), s.expression);
        assert o == Commit(rt, variables, s);
        if out.Failed? {
          StartsWithShorterPrefix(out.text, "Error:", " ");
        }
      }
      forall i | 0 <= i < |r.history|
        ensures Recorded(rt, r.history[i])
      {
        if i < |s.history| {
          assert r.history[i] == s.history[i];
        }
      }
    }
  }

  /** What pressing the button labelled `button` does to the screen. */
  function Next(rt: Runtime, variables: map<string, Value>, s: Screen, button: string): Outcome<Screen> {
    Step(rt, variables, s, KeyOf(button))
  }

  /** `HistoryItem`'s expression line: at most 30 characters; a longer text
      keeps its first 27 and ends in `...`. */
  function HistoryLabel(expression: string): (r: string)
    ensures |r| <= 30
    ensures |expression| <= 30 ==> r == expression
    ensures |expression| > 30 ==> |r| == 30 && r[..27] == expression[..27] && r[27..] == "..."
  {
    if |expression| > 30 then expression[..27] + "..." else expression
  }

  /** `CalculatorLayout`: the fields the press handler updates, and the
      evaluator it owns. */
  class CalculatorLayout {
    var currentExpression: string
    var history: seq<Entry>
    var mode: string
    const evaluator: SafeEval

    function Snapshot(): Screen
      reads this
    {
      Screen(currentExpression, history, mode)
    }

    ghost predicate Valid()
      reads this, evaluator
    {
      WellFormed(evaluator.rt, Snapshot()) && evaluator.mode == mode
    }

    /** An empty expression, no history, radians, and a fresh evaluator in
        its default mode. */
    constructor (rt: Runtime)
      ensures Valid() && fresh(evaluator)
      ensures currentExpression == "" && history == [] && mode == "rad"
      ensures evaluator.rt == rt && evaluator.variables == map[]
    {
      evaluator := new SafeEval(rt);
      mode := "rad";
      currentExpression := "";
      history := [];
    }

    /** `on_button_press`: the label's tests are those of `KeyOf`. The
        result is `Raises` exactly when the handler raises, and then nothing
        has changed. */
    method Press(button: string) returns (r: Outcome<()>)
      requires Valid()
      modifies this, evaluator
      ensures Valid()
      ensures var next := Next(evaluator.rt, evaluator.variables, old(Snapshot()), button);
        && (r.Raises? <==> next.Raises?)
        && (next.Raises? ==> r.message == next.message && Snapshot() == old(Snapshot()))
        && (next.Returns? ==> Snapshot() == next.value)
    {
      r := Returns(());
      StepKeepsWellFormed(evaluator.rt, evaluator.variables, Snapshot(), KeyOf(button));
      match KeyOf(button)
      case Clear =>
        currentExpression := "";
      case Backspace =>
        currentExpression := DropLast(currentExpression);
      case Equals =>
        var result := evaluator.EvalExpr(currentExpression);
        var shown := Shown(evaluator.rt, result);
        if shown.Raises? {
          return Raises(shown.message);
        }
        currentExpression := shown.value;
        if !StartsWith(currentExpression, "Error:") {
          history := history + [Entry(currentExpression, result)];
        }
      case ToggleMode =>
        mode := NextMode(mode);
        evaluator.SetMode(mode);
        currentExpression := ModeBanner(mode);
      case Sign =>
        currentExpression := ToggleSign(currentExpression);
      case Append(snippet) =>
        currentExpression := currentExpression + snippet;
    }

    /** `clear_history`: the history popup holds the same list, so clearing
        it empties the calculator's history. */
    method ClearHistory()
      requires Valid()
      modifies this`history
      ensures Valid() && history == []
    {
      history := [];
    }

    /** `reuse_history_entry`, and `HistoryPopup.reuse_entry` on the layout it
        belongs to: both only set the expression to the given text. */
    method ReuseHistoryEntry(expression: string)
      requires Valid()
      modifies this`currentExpression
      ensures Valid() && currentExpression == expression
    {
      currentExpression := expression;
    }
  }
}
