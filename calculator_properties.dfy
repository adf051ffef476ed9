/** What the calculator's buttons promise, stated over `Next`, the step
    function the press handler is proved against. */
module CalculatorProperties {
  import opened PyValues
  import opened Whitelist
  import opened Glyphs
  import opened SafeEvaluator
  import opened Calculator

  /** `=` raises exactly when `str` of an evaluated value raises. Otherwise
      it shows `str` of the result and keeps the mode; it appends the pair
      (shown text, result) to the history exactly when the evaluation
      produced a value whose text does not start with `Error:`, and
      otherwise leaves the history as it was. */
  lemma EqualsRecordsOnlySuccesses(rt: Runtime, variables: map<string, Value>, s: Screen)
    ensures var out := Evaluate(Context(rt, AllowedNames, s.mode, variables), s.expression);
      var o := Next(rt, variables, s, "=");
      && (o.Raises? <==> out.Evaluated? && rt.str(out.value).Raises?)
      && (o.Raises? ==> o.message == rt.str(out.value).message)
      && (o.Returns? ==>
        var r := o.value;
        && Shown(rt, out) == Returns(r.expression) && r.mode == s.mode
        && (r.history == s.history + [Entry(r.expression, out)]
            <==> out.Evaluated? && !StartsWith(r.expression, "Error:"))
        && (r.history == s.history || r.history == s.history + [Entry(r.expression, out)]))
  {
    var out := Evaluate(Context(rt, AllowedNames, s.mode, variables), s.expression);
    assert KeyOf("=") == Equals;
    if out.Failed? {
      StartsWithShorterPrefix(out.text, "Error:", " ");
    }
  }

  /** A failed evaluation shows its `Error: ` text and leaves the history. */
  lemma FailureShowsErrorText(rt: Runtime, variables: map<string, Value>, s: Screen)
    requires Evaluate(Context(rt, AllowedNames, s.mode, variables), s.expression).Failed?
    ensures Next(rt, variables, s, "=").Returns?
    ensures StartsWith(Next(rt, variables, s, "=").value.expression, "Error: ")
    ensures Next(rt, variables, s, "=").value.history == s.history
    ensures Next(rt, variables, s, "=").value.mode == s.mode
  {
    var out := Evaluate(Context(rt, AllowedNames, s.mode, variables), s.expression);
    assert KeyOf("=") == Equals;
    StartsWithShorterPrefix(out.text, "Error:", " ");
  }

  /** The two banners the `mode` button shows. */
  lemma ModeBanners()
    ensures ModeBanner("deg") == "Mode: DEG" && ModeBanner("rad") == "Mode: RAD"
  {
    UpperDeg("deg");
    UpperRad("rad");
  }

  /** `ModeBanners` one mode at a time; the mode is a parameter fixed by
      `requires` so that its slices stay small terms. */
  lemma UpperDeg(mode: string)
    requires mode == "deg"
    ensures Upper(mode) == "DEG"
  {
    assert Upper(mode[2..]) == "G";
    assert Upper(mode[1..]) == "EG";
  }

  lemma UpperRad(mode: string)
    requires mode == "rad"
    ensures Upper(mode) == "RAD"
  {
    assert Upper(mode[2..]) == "D";
    assert Upper(mode[1..]) == "AD";
  }

  lemma BannerHasNoGlyphs(mode: string)
    requires mode == "rad" || mode == "deg"
    ensures HasNoGlyphs(ModeBanner(mode))
  {
    ModeBanners();
    assert HasNoGlyphs("Mode: DEG") && HasNoGlyphs("Mode: RAD");
  }

  /** `mode` switches between radians and degrees, announces the new mode
      in capitals, and a second press brings the first mode back. */
  lemma ModeButtonToggles(rt: Runtime, variables: map<string, Value>, s: Screen)
    requires WellFormed(rt, s)
    ensures Next(rt, variables, s, "mode").Returns?
    ensures var r := Next(rt, variables, s, "mode").value;
      && r.mode != s.mode
      && r.expression == (if s.mode == "rad" then "Mode: DEG" else "Mode: RAD")
      && r.history == s.history
      && Next(rt, variables, r, "mode") == Returns(Screen(ModeBanner(s.mode), s.history, s.mode))
  {
    assert KeyOf("mode") == ToggleMode;
    ModeBanners();
  }

  /** `±` twice restores the expression, unless it starts with two minus
      signs: then each press drops one of them. */
  lemma SignTwiceRestores(rt: Runtime, variables: map<string, Value>, s: Screen)
    requires !StartsWith(s.expression, "--")
    ensures Next(rt, variables, s, "±").Returns?
    ensures Next(rt, variables, Next(rt, variables, s, "±").value, "±") == Returns(s)
  {
    assert KeyOf("±") == Sign;
    var e := s.expression;
    if |e| > 0 && e[0] == '-' {
      assert |e| < 2 || e[1] != '-';
      assert "-" + e[1..] == e;
    } else {
      assert ("-" + e)[1..] == e;
    }
  }

  /** On an expression that starts with two minus signs, each `±` drops one
      of them, so two presses remove both. */
  lemma SignOnDoubleMinus(rt: Runtime, variables: map<string, Value>, s: Screen)
    requires StartsWith(s.expression, "--")
    ensures Next(rt, variables, s, "±").Returns?
    ensures Next(rt, variables, Next(rt, variables, s, "±").value, "±") == Returns(s.(expression := s.expression[2..]))
  {
    assert KeyOf("±") == Sign;
    var e := s.expression;
    assert e[0] == '-' && e[1] == '-' by {
      assert e[..2] == "--";
    }
    assert e[1..][1..] == e[2..];
  }

  /** `⌫` right after a button that appends one character undoes it. */
  lemma BackspaceUndoesOneCharacter(rt: Runtime, variables: map<string, Value>, s: Screen, button: string)
    requires KeyOf(button).Append? && |Snippet(button)| == 1
    ensures Next(rt, variables, s, button).Returns?
    ensures Next(rt, variables, Next(rt, variables, s, button).value, "⌫") == Returns(s)
  {
    assert KeyOf("⌫") == Backspace;
    assert (s.expression + Snippet(button))[..|s.expression|] == s.expression;
  }

  /** `C` empties the expression whatever it held, and keeps the rest. */
  lemma ClearEmpties(rt: Runtime, variables: map<string, Value>, s: Screen)
    ensures Next(rt, variables, s, "C") == Returns(Screen("", s.history, s.mode))
  {
    assert KeyOf("C") == Clear;
  }

  /** Every appending button adds its snippet to the end of the expression
      and changes nothing else. */
  lemma AppendAddsSnippet(rt: Runtime, variables: map<string, Value>, s: Screen, button: string)
    requires KeyOf(button).Append?
    ensures Next(rt, variables, s, button) == Returns(s.(expression := s.expression + Snippet(button)))
  {
  }

  /** A label without glyphs, or one of the `÷` and `×` buttons, appends
      text without `^`, `÷` or `×`: the keypad writes the ASCII operators. */
  lemma SnippetHasNoGlyphs(button: string)
    requires HasNoGlyphs(button) || button in ["÷", "×"]
    ensures HasNoGlyphs(Snippet(button))
  {
    if button in ["÷", "×"] {
      assert Snippet(button) in ["/", "*"];
    }
  }

  /** The `÷` and `×` buttons append what the evaluator's normalization
      would turn the glyph into. */
  lemma KeypadAgreesWithNormalization(button: string)
    requires button in ["÷", "×"]
    ensures Snippet(button) == NormalizeGlyphs(button)
  {
    if button == "÷" {
      assert NormalizeGlyphs("÷") == "/";
    } else {
      assert NormalizeGlyphs("×") == "*";
    }
  }

  /** A slice of a glyph-free text is glyph-free. */
  lemma SliceHasNoGlyphs(s: string, i: int, j: int)
    requires HasNoGlyphs(s) && 0 <= i <= j <= |s|
    ensures HasNoGlyphs(s[i..j])
  {
    forall c | c in s[i..j]
      ensures c in s
    {
      var k :| i <= k < j && s[k] == c;
    }
  }

  /** The editing keys keep a glyph-free expression glyph-free, as long as
      what they append is glyph-free. */
  lemma EditKeepsNoGlyphs(e: string, key: Key)
    requires HasNoGlyphs(e)
    requires key.Append? ==> HasNoGlyphs(key.snippet)
    ensures HasNoGlyphs(Edit(e, key))
  {
    match key {
      case Sign =>
        if |e| > 0 && e[0] == '-' {
          SliceHasNoGlyphs(e, 1, |e|);
        }
      case Backspace =>
        if e != [] {
          SliceHasNoGlyphs(e, 0, |e| - 1);
        }
      case _ =>
    }
  }

  /** Every key but `=` keeps a glyph-free expression glyph-free when what
      it appends is glyph-free (as `SnippetHasNoGlyphs` shows for the
      keypad), so the text `=` later evaluates is exactly the text typed. */
  lemma TypingKeepsExpressionAscii(rt: Runtime, variables: map<string, Value>, s: Screen, key: Key)
    requires HasNoGlyphs(s.expression) && key != Equals
    requires key.Append? ==> HasNoGlyphs(key.snippet)
    ensures Step(rt, variables, s, key).Returns?
    ensures HasNoGlyphs(Step(rt, variables, s, key).value.expression)
    ensures NormalizeGlyphs(Step(rt, variables, s, key).value.expression) == Step(rt, variables, s, key).value.expression
  {
    var r := Step(rt, variables, s, key).value;
    if key == ToggleMode {
      BannerHasNoGlyphs(NextMode(s.mode));
      assert r.expression == ModeBanner(NextMode(s.mode));
    } else {
      EditKeepsNoGlyphs(s.expression, key);
      assert r.expression == Edit(s.expression, key);
    }
    NoGlyphsUnchanged(r.expression);
  }
}
