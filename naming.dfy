/** Default names for new swatches: a fixed table of well-known colours, else a positional name. */
module Naming {
  import opened Text

  /** The well-known colours, keyed by the lower-case `#rrggbb` form the colour parser produces. */
  const CommonColors: map<string, string> := map[
    "#f1f3e0" := "cream",
    "#d2dcb6" := "light-green",
    "#a1bc98" := "sage",
    "#778873" := "deep-green",
    "#2a2a2a" := "text-dark",
    "#555555" := "text-light",
    "#ff0000" := "red",
    "#00ff00" := "green",
    "#0000ff" := "blue",
    "#ffff00" := "yellow",
    "#ffa500" := "orange",
    "#800080" := "purple",
    "#ffffff" := "white",
    "#000000" := "black"
  ]

  predicate IsLowerHexDigit(c: char) {
    '0' <= c <= '9' || 'a' <= c <= 'f'
  }

  /** A colour in the form the parser's output takes: `#` and six lower-case hex digits. */
  predicate IsHexColor(hex: string) {
    |hex| == 7 && hex[0] == '#' && forall k :: 1 <= k < 7 ==> IsLowerHexDigit(hex[k])
  }

  /**
   * Every key of the table is in that form, so a parsed colour can hit it, and every name in
   * it is non-empty, so the truthiness test on a hit always passes.
   */
  lemma CommonColorsShape()
    ensures forall hex :: hex in CommonColors ==> IsHexColor(hex)
    ensures forall hex :: hex in CommonColors ==> CommonColors[hex] != ""
  {
    forall hex | hex in CommonColors
      ensures IsHexColor(hex) && CommonColors[hex] != ""
    {
      assert |hex| == 7 && hex[0] == '#';
    }
  }

  const PositionalPrefix: string := "color-"

  /** `color-<index + 1>`: the name of the swatch at 0-based `index`, counted from one. */
  function PositionalName(index: nat): (name: string)
    ensures |name| > |PositionalPrefix| && name[..|PositionalPrefix|] == PositionalPrefix
  {
    PositionalPrefix + NatToString(index + 1)
  }

  /**
   * After the prefix come decimal digits with no leading zero that read back as `index + 1`,
   * which pins the name down as the text of `color-${index + 1}`.
   */
  lemma PositionalNameDigits(index: nat)
    ensures var digits := PositionalName(index)[|PositionalPrefix|..];
      IsDecimal(digits) && digits[0] != '0' && ParseNat(digits) == index + 1
  {
    NatToStringRoundTrip(index + 1);
    assert PositionalName(index)[|PositionalPrefix|..] == NatToString(index + 1);
  }

  /** Different positions get different positional names. */
  lemma PositionalNameInjective(i: nat, j: nat)
    requires PositionalName(i) == PositionalName(j)
    ensures i == j
  {
    PositionalNameDigits(i);
    PositionalNameDigits(j);
  }

  /**
   * `autoNameColor`: the table's name for the parsed colour when the table knows it,
   * otherwise the positional name. `toHex` is the host's colour parser.
   */
  function AutoName(toHex: string -> string, color: string, index: nat): (name: string)
    ensures toHex(color) in CommonColors ==> name == CommonColors[toHex(color)]
    ensures toHex(color) !in CommonColors ==> name == PositionalName(index)
  {
    var hex := toHex(color);
    if hex in CommonColors && CommonColors[hex] != "" then CommonColors[hex] else PositionalName(index)
  }

  /** No name in the table looks like a positional name. */
  lemma TableNamesNotPositional(index: nat)
    ensures PositionalName(index) !in CommonColors.Values
  {
    var p := PositionalName(index);
    assert p[0] == 'c' && p[1] == 'o';
    forall hex | hex in CommonColors
      ensures CommonColors[hex] != p
    {
      var v := CommonColors[hex];
      assert |v| >= 2 && (v[0] != 'c' || v[1] != 'o');
    }
  }

  /** The default name is a table name exactly when the parsed colour is in the table. */
  lemma AutoNameHitIff(toHex: string -> string, color: string, index: nat)
    ensures AutoName(toHex, color, index) in CommonColors.Values <==> toHex(color) in CommonColors
  {
    if toHex(color) !in CommonColors {
      TableNamesNotPositional(index);
    }
  }

  /** A default name is never empty, so the CSS export never falls back for it. */
  lemma AutoNameNonEmpty(toHex: string -> string, color: string, index: nat)
    ensures AutoName(toHex, color, index) != ""
  {
  }

  /**
   * A colour the parser reads as `#f1f3e0` hits the table as "cream"; one it reads as `#123456`
   * misses it and at 0-based position 1 is named "color-2".
   */
  lemma AutoNameScenario(toHex: string -> string, first: string, second: string)
    requires toHex(first) == "#f1f3e0" && toHex(second) == "#123456"
    ensures AutoName(toHex, first, 0) == "cream"
    ensures AutoName(toHex, second, 1) == "color-2"
  {
    assert "#f1f3e0" in CommonColors && CommonColors["#f1f3e0"] == "cream";
    assert "#123456" !in CommonColors;
    assert NatToString(2) == "2";
  }
}
