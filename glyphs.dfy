/** The glyph rewriting that `eval_expr` applies before parsing: `^` becomes
    `**`, then `÷` becomes `/`, then `×` becomes `*`, each by plain
    `str.replace`. */
module Glyphs {

  /** `s.replace(glyph, replacement)` for a one-character `glyph`. */
  function ReplaceAll(s: string, glyph: char, replacement: string): (r: string)
    ensures glyph !in replacement ==> glyph !in r
    ensures glyph !in s ==> r == s
  {
    if s == [] then []
    else (if s[0] == glyph then replacement else [s[0]]) + ReplaceAll(s[1..], glyph, replacement)
  }

  /** A character of the result comes from the input (and is not the glyph)
      or from the replacement. */
  lemma {:induction false} ReplaceAllIntroducesOnly(s: string, glyph: char, replacement: string, c: char)
    requires c in ReplaceAll(s, glyph, replacement)
    ensures (c in s && c != glyph) || c in replacement
  {
    if s != [] {
      var head := if s[0] == glyph then replacement else [s[0]];
      if c !in head {
        ReplaceAllIntroducesOnly(s[1..], glyph, replacement, c);
      }
    }
  }

  /** The three replacements in the order `eval_expr` chains them. */
  function NormalizeGlyphs(expr: string): string {
    ReplaceAll(ReplaceAll(ReplaceAll(expr, '^', "**"), '÷', "/"), '×', "*")
  }

  predicate HasNoGlyphs(s: string) {
    '^' !in s && '÷' !in s && '×' !in s
  }

  /** After normalizing, none of the three glyphs is left. */
  lemma NormalizedHasNoGlyphs(expr: string)
    ensures HasNoGlyphs(NormalizeGlyphs(expr))
  {
    var s1 := ReplaceAll(expr, '^', "**");
    var s2 := ReplaceAll(s1, '÷', "/");
    var s3 := ReplaceAll(s2, '×', "*");
    if '^' in s2 { ReplaceAllIntroducesOnly(s1, '÷', "/", '^'); }
    if '^' in s3 { ReplaceAllIntroducesOnly(s2, '×', "*", '^'); }
    if '÷' in s3 { ReplaceAllIntroducesOnly(s2, '×', "*", '÷'); }
  }

  /** Normalizing twice is normalizing once. */
  lemma NormalizeIdempotent(expr: string)
    ensures NormalizeGlyphs(NormalizeGlyphs(expr)) == NormalizeGlyphs(expr)
  {
    NormalizedHasNoGlyphs(expr);
  }

  /** Text without the glyphs is left as it is. */
  lemma NoGlyphsUnchanged(s: string)
    requires HasNoGlyphs(s)
    ensures NormalizeGlyphs(s) == s
  {
  }

  /** What one character becomes; the reference for the three chained passes. */
  function GlyphText(c: char): string {
    if c == '^' then "**" else if c == '÷' then "/" else if c == '×' then "*" else [c]
  }

  /** A single pass that rewrites every character on its own. */
  function NormalizeEachChar(s: string): string {
    if s == [] then [] else GlyphText(s[0]) + NormalizeEachChar(s[1..])
  }

  lemma {:induction false} ReplaceAllConcat(a: string, b: string, glyph: char, replacement: string)
    ensures ReplaceAll(a + b, glyph, replacement) == ReplaceAll(a, glyph, replacement) + ReplaceAll(b, glyph, replacement)
  {
    if a != [] {
      calc {
        ReplaceAll(a + b, glyph, replacement);
        (if a[0] == glyph then replacement else [a[0]]) + ReplaceAll((a + b)[1..], glyph, replacement);
        { assert (a + b)[1..] == a[1..] + b; }
        (if a[0] == glyph then replacement else [a[0]]) + ReplaceAll(a[1..] + b, glyph, replacement);
        { ReplaceAllConcat(a[1..], b, glyph, replacement); }
        (if a[0] == glyph then replacement else [a[0]]) + (ReplaceAll(a[1..], glyph, replacement) + ReplaceAll(b, glyph, replacement));
      }
    } else {
      assert a + b == b;
    }
  }

  /** The three chained passes do what the one-pass rewriting does: no pass
      introduces a glyph a later pass would rewrite. */
  lemma {:induction false} ChainedPassesAreOnePass(s: string)
    ensures NormalizeGlyphs(s) == NormalizeEachChar(s)
  {
    if s != [] {
      var c, t := s[0], s[1..];
      assert s == [c] + t;
      ReplaceAllConcat([c], t, '^', "**");
      var h1 := ReplaceAll([c], '^', "**");
      var t1 := ReplaceAll(t, '^', "**");
      ReplaceAllConcat(h1, t1, '÷', "/");
      var h2 := ReplaceAll(h1, '÷', "/");
      var t2 := ReplaceAll(t1, '÷', "/");
      ReplaceAllConcat(h2, t2, '×', "*");
      assert ReplaceAll(h2, '×', "*") == GlyphText(c) by {
        assert ReplaceAll([c], '^', "**") == (if c == '^' then "**" else [c]) + [];
        if c == '^' {
          assert ReplaceAll("**", '÷', "/") == "**";
          assert ReplaceAll("**", '×', "*") == "**";
        } else {
          assert h1 == [c];
          assert ReplaceAll([c], '÷', "/") == (if c == '÷' then "/" else [c]) + [];
        }
      }
      ChainedPassesAreOnePass(t);
    }
  }

  lemma {:induction false} EachCharConcat(a: string, b: string)
    ensures NormalizeEachChar(a + b) == NormalizeEachChar(a) + NormalizeEachChar(b)
  {
    if a != [] {
      assert (a + b)[1..] == a[1..] + b;
      EachCharConcat(a[1..], b);
    } else {
      assert a + b == b;
    }
  }

  /** Normalizing distributes over concatenation. */
  lemma NormalizeConcat(a: string, b: string)
    ensures NormalizeGlyphs(a + b) == NormalizeGlyphs(a) + NormalizeGlyphs(b)
  {
    ChainedPassesAreOnePass(a + b);
    ChainedPassesAreOnePass(a);
    ChainedPassesAreOnePass(b);
    EachCharConcat(a, b);
  }

  lemma NormalizeOneChar(c: char)
    ensures NormalizeGlyphs([c]) == GlyphText(c)
  {
    ChainedPassesAreOnePass([c]);
    assert NormalizeEachChar([c]) == GlyphText(c) + NormalizeEachChar([]);
  }

  /** `DivideTimesExample` in three short steps, each unfolding the one-pass
      rewriting a few characters at a time; the text is a parameter fixed by
      `requires` so that its slices stay small terms. */
  lemma EachCharExampleTail(s: string)
    requires s == "6÷2×(1+2)"
    ensures NormalizeEachChar(s[4..]) == "(1+2)"
  {
    assert NormalizeEachChar(s[8..]) == ")";
    assert NormalizeEachChar(s[7..]) == "2)";
    assert NormalizeEachChar(s[6..]) == "+2)";
    assert NormalizeEachChar(s[5..]) == "1+2)";
  }

  lemma EachCharExampleMiddle(s: string)
    requires s == "6÷2×(1+2)"
    ensures NormalizeEachChar(s[2..]) == "2*(1+2)"
  {
    EachCharExampleTail(s);
    assert NormalizeEachChar(s[3..]) == "*(1+2)";
  }

  lemma EachCharExample(s: string)
    requires s == "6÷2×(1+2)"
    ensures NormalizeEachChar(s) == "6/2*(1+2)"
  {
    EachCharExampleMiddle(s);
    assert NormalizeEachChar(s[1..]) == "/2*(1+2)";
  }

  /** The calculator's own glyphs normalize to the ASCII operators. */
  lemma DivideTimesExample()
    ensures NormalizeGlyphs("6÷2×(1+2)") == "6/2*(1+2)"
  {
    EachCharExample("6÷2×(1+2)");
    ChainedPassesAreOnePass("6÷2×(1+2)");
  }

  lemma AsciiExampleUnchanged()
    ensures NormalizeGlyphs("6/2*(1+2)") == "6/2*(1+2)"
  {
    assert HasNoGlyphs("6/2*(1+2)");
    NoGlyphsUnchanged("6/2*(1+2)");
  }
}
