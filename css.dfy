/** The text `copyPaletteAsCSS` builds: a `:root` block with one custom property per swatch. */
module CssExport {
  import opened Text
  import opened Naming
  import opened Palettes

  const Header: string := ":root {\n"
  const Footer: string := "}"

  /** The property name of the swatch at 0-based position `i`: its own name, or the positional one when it has none. */
  function VarName(entry: ColorEntry, i: nat): string {
    if entry.name != "" then "--" + entry.name else "--" + PositionalName(i)
  }

  /** The declaration line `  --<name>: <color>;` of one swatch. */
  function CssLine(entry: ColorEntry, i: nat): string {
    "  " + VarName(entry, i) + ": " + entry.color + ";\n"
  }

  /**
   * What the `forEach` appends for the first `n` swatches of `colors`: `line(colors[k], k)`
   * for each `k < n`, in palette order.
   */
  function Lines(line: (ColorEntry, nat) -> string, colors: seq<ColorEntry>, n: nat): string
    requires n <= |colors|
  {
    if n == 0 then "" else Lines(line, colors, n - 1) + line(colors[n - 1], n - 1)
  }

  /** The declaration lines of all of `colors`. */
  function Body(colors: seq<ColorEntry>): string {
    Lines(CssLine, colors, |colors|)
  }

  /** The exported text of a palette with swatches `colors`. */
  function ToCSS(colors: seq<ColorEntry>): string {
    Header + Body(colors) + Footer
  }

  /** The export starts with the `:root {` header line and ends with the closing brace. */
  lemma ToCssShape(colors: seq<ColorEntry>)
    ensures |ToCSS(colors)| > |Header| && ToCSS(colors)[..|Header|] == Header
    ensures ToCSS(colors)[|ToCSS(colors)| - 1] == '}'
  {
    assert ToCSS(colors) == Header + (Body(colors) + Footer);
  }

  /** The `forEach` loop of `copyPaletteAsCSS`, appending one line per swatch to `cssText`. */
  method BuildCss(colors: seq<ColorEntry>) returns (cssText: string)
    ensures cssText == ToCSS(colors)
  {
    cssText := Header;
    var i := 0;
    while i < |colors|
      invariant 0 <= i <= |colors|
      invariant cssText == Header + Lines(CssLine, colors, i)
    {
      LinesStep(Header, CssLine, colors, i);
      cssText := cssText + CssLine(colors[i], i);
      i := i + 1;
    }
    cssText := cssText + Footer;
  }

  /** One more round of the loop appends the next swatch's line after what is there. */
  lemma LinesStep(prefix: string, line: (ColorEntry, nat) -> string, colors: seq<ColorEntry>, i: nat)
    requires i < |colors|
    ensures prefix + Lines(line, colors, i + 1) == (prefix + Lines(line, colors, i)) + line(colors[i], i)
  {
  }

  function CountNewlines(s: string): nat {
    if s == [] then 0 else CountNewlines(s[..|s| - 1]) + (if s[|s| - 1] == '\n' then 1 else 0)
  }

  lemma {:induction false} CountNewlinesAppend(a: string, b: string)
    ensures CountNewlines(a + b) == CountNewlines(a) + CountNewlines(b)
    decreases |b|
  {
    if b == [] {
      assert a + b == a;
    } else {
      var b' := b[..|b| - 1];
      assert (a + b)[..|a + b| - 1] == a + b';
      CountNewlinesAppend(a, b');
    }
  }

  lemma {:induction false} NoNewlines(s: string)
    requires forall k :: 0 <= k < |s| ==> s[k] != '\n'
    ensures CountNewlines(s) == 0
    decreases |s|
  {
    if s != [] {
      NoNewlines(s[..|s| - 1]);
    }
  }

  predicate SingleLine(s: string) {
    forall k :: 0 <= k < |s| ==> s[k] != '\n'
  }

  /** No swatch name or colour contains a line break. */
  predicate NoLineBreaks(colors: seq<ColorEntry>) {
    forall k :: 0 <= k < |colors| ==> SingleLine(colors[k].name) && SingleLine(colors[k].color)
  }

  lemma LineHasOneNewline(entry: ColorEntry, i: nat)
    requires SingleLine(entry.name) && SingleLine(entry.color)
    ensures CountNewlines(CssLine(entry, i)) == 1
  {
    var v := VarName(entry, i);
    var digits := NatToString(i + 1);
    assert SingleLine(digits);
    NoNewlines("  " + v + ": " + entry.color + ";");
    CountNewlinesAppend("  " + v + ": " + entry.color + ";", "\n");
    assert CssLine(entry, i) == "  " + v + ": " + entry.color + ";" + "\n";
  }

  /**
   * The export has one line for the header and one per swatch: with no line break inside
   * any name or colour, the text holds exactly `|colors| + 1` line breaks.
   */
  lemma {:induction false} ToCssLineCount(colors: seq<ColorEntry>)
    requires NoLineBreaks(colors)
    ensures CountNewlines(ToCSS(colors)) == |colors| + 1
  {
    BodyLineCount(colors);
    CountNewlinesAppend(Header, Body(colors));
    CountNewlinesAppend(Header + Body(colors), Footer);
    assert Header == ":root {" + "\n";
    NoNewlines(":root {");
    CountNewlinesAppend(":root {", "\n");
  }

  /** With one line break per line, the first `n` lines hold exactly `n` line breaks. */
  lemma {:induction false} LinesLineCount(line: (ColorEntry, nat) -> string, colors: seq<ColorEntry>, n: nat)
    requires n <= |colors|
    requires forall k :: 0 <= k < n ==> CountNewlines(line(colors[k], k)) == 1
    ensures CountNewlines(Lines(line, colors, n)) == n
  {
    if n > 0 {
      LinesLineCount(line, colors, n - 1);
      CountNewlinesAppend(Lines(line, colors, n - 1), line(colors[n - 1], n - 1));
    }
  }

  lemma BodyLineCount(colors: seq<ColorEntry>)
    requires NoLineBreaks(colors)
    ensures CountNewlines(Body(colors)) == |colors|
  {
    forall k | 0 <= k < |colors|
      ensures CountNewlines(CssLine(colors[k], k)) == 1
    {
      LineHasOneNewline(colors[k], k);
    }
    LinesLineCount(CssLine, colors, |colors|);
  }

  /** The first `n` lines depend only on the first `n` swatches. */
  lemma {:induction false} LinesPrefix(line: (ColorEntry, nat) -> string, a: seq<ColorEntry>, b: seq<ColorEntry>, n: nat)
    requires n <= |a|
    ensures Lines(line, a + b, n) == Lines(line, a, n)
  {
    if n > 0 {
      LinesPrefix(line, a, b, n - 1);
      assert (a + b)[n - 1] == a[n - 1];
    }
  }

  /** Appending a swatch appends exactly its line, numbered by its 0-based position. */
  lemma BodyAppend(colors: seq<ColorEntry>, entry: ColorEntry)
    ensures Body(colors + [entry]) == Body(colors) + CssLine(entry, |colors|)
  {
    var c := colors + [entry];
    var n := |colors|;
    assert Body(c) == Lines(CssLine, c, n) + CssLine(c[n], n);
    LinesPrefix(CssLine, colors, [entry], n);
    assert c[n] == entry;
  }

  lemma ExampleNamedLine()
    ensures CssLine(ColorEntry("#ff0000", "red"), 0) == "  --red: #ff0000;\n"
  {
    assert VarName(ColorEntry("#ff0000", "red"), 0) == "--red";
  }

  lemma ExampleUnnamedLine()
    ensures CssLine(ColorEntry("#00ff00", ""), 1) == "  --color-2: #00ff00;\n"
  {
    assert NatToString(2) == "2";
    assert VarName(ColorEntry("#00ff00", ""), 1) == "--color-2";
  }

  lemma ExampleBody()
    ensures Body([ColorEntry("#ff0000", "red"), ColorEntry("#00ff00", "")])
            == "  --red: #ff0000;\n" + "  --color-2: #00ff00;\n"
  {
    var e0, e1 := ColorEntry("#ff0000", "red"), ColorEntry("#00ff00", "");
    ExampleNamedLine();
    ExampleUnnamedLine();
    var none: seq<ColorEntry> := [];
    BodyAppend(none, e0);
    assert none + [e0] == [e0];
    assert Body([e0]) == "  --red: #ff0000;\n";
    BodyAppend([e0], e1);
    assert [e0] + [e1] == [e0, e1];
  }

  /** A named swatch and an unnamed second swatch that falls back to `--color-2`. */
  lemma ToCssExample()
    ensures ToCSS([ColorEntry("#ff0000", "red"), ColorEntry("#00ff00", "")])
            == ":root {\n" + "  --red: #ff0000;\n" + "  --color-2: #00ff00;\n" + "}"
  {
    ExampleBody();
  }
}
