/**
 The colour table of the command (`getColorMap`) and the substitution the
 command applies to its `--color` flag.

 The table holds the CSS named colours of CSS Color Module Level 4, section
 6.1 (Named Colors): 148 lowercase names, `rebeccapurple` and the gray/grey
 spellings included, each mapped to its `#rrggbb` value.
 */
module ColorTable {

  predicate IsLowerLetter(ch: char) {
    'a' <= ch <= 'z'
  }

  predicate IsLowerHexDigit(ch: char) {
    '0' <= ch <= '9' || 'a' <= ch <= 'f'
  }

  /** A key of the table: a non-empty run of lowercase ASCII letters. */
  predicate IsColorName(s: string) {
    |s| > 0 && forall i :: 0 <= i < |s| ==> IsLowerLetter(s[i])
  }

  /** A value of the table: `#` followed by six lowercase hexadecimal digits. */
  predicate IsHexColor(s: string) {
    |s| == 7 && s[0] == '#' && forall i :: 1 <= i < 7 ==> IsLowerHexDigit(s[i])
  }

  /**
   The map returned by `getColorMap`. The source writes it as a single map
   literal; here the same 148 entries are written as fourteen literals grouped by
   initial letter and joined with map union, so that each group can be checked
   on its own. Each of the 148 keys of the literal appears in exactly one
   group, with the same value, so the union holds exactly the literal's pairs.
   */
  function Colors(): map<string, string> {
    ColorsAB()
      + ColorsC()
      + ColorsD1()
      + ColorsD2()
      + ColorsFG()
      + ColorsHK()
      + ColorsL1()
      + ColorsL2()
      + ColorsM1()
      + ColorsM2()
      + ColorsNO()
      + ColorsPR()
      + ColorsS()
      + ColorsTY()
  }

  function ColorsAB(): map<string, string> {
    map[
      "aliceblue"      := "#f0f8ff",
      "antiquewhite"   := "#faebd7",
      "aqua"           := "#00ffff",
      "aquamarine"     := "#7fffd4",
      "azure"          := "#f0ffff",
      "beige"          := "#f5f5dc",
      "bisque"         := "#ffe4c4",
      "black"          := "#000000",
      "blanchedalmond" := "#ffebcd",
      "blue"           := "#0000ff",
      "blueviolet"     := "#8a2be2",
      "brown"          := "#a52a2a",
      "burlywood"      := "#deb887"
    ]
  }

  function ColorsC(): map<string, string> {
    map[
      "cadetblue"      := "#5f9ea0",
      "chartreuse"     := "#7fff00",
      "chocolate"      := "#d2691e",
      "coral"          := "#ff7f50",
      "cornflowerblue" := "#6495ed",
      "cornsilk"       := "#fff8dc",
      "crimson"        := "#dc143c",
      "cyan"           := "#00ffff"
    ]
  }

  function ColorsD1(): map<string, string> {
    map[
      "darkblue"       := "#00008b",
      "darkcyan"       := "#008b8b",
      "darkgoldenrod"  := "#b8860b",
      "darkgray"       := "#a9a9a9",
      "darkgreen"      := "#006400",
      "darkgrey"       := "#a9a9a9",
      "darkkhaki"      := "#bdb76b",
      "darkmagenta"    := "#8b008b",
      "darkolivegreen" := "#556b2f",
      "darkorange"     := "#ff8c00",
      "darkorchid"     := "#9932cc"
    ]
  }

  function ColorsD2(): map<string, string> {
    map[
      "darkred"       := "#8b0000",
      "darksalmon"    := "#e9967a",
      "darkseagreen"  := "#8fbc8f",
      "darkslateblue" := "#483d8b",
      "darkslategray" := "#2f4f4f",
      "darkslategrey" := "#2f4f4f",
      "darkturquoise" := "#00ced1",
      "darkviolet"    := "#9400d3",
      "deeppink"      := "#ff1493",
      "deepskyblue"   := "#00bfff",
      "dimgray"       := "#696969",
      "dimgrey"       := "#696969",
      "dodgerblue"    := "#1e90ff"
    ]
  }

  function ColorsFG(): map<string, string> {
    map[
      "firebrick"   := "#b22222",
      "floralwhite" := "#fffaf0",
      "forestgreen" := "#228b22",
      "fuchsia"     := "#ff00ff",
      "gainsboro"   := "#dcdcdc",
      "ghostwhite"  := "#f8f8ff",
      "goldenrod"   := "#daa520",
      "gold"        := "#ffd700",
      "gray"        := "#808080",
      "green"       := "#008000",
      "greenyellow" := "#adff2f",
      "grey"        := "#808080"
    ]
  }

  function ColorsHK(): map<string, string> {
    map[
      "honeydew"  := "#f0fff0",
      "hotpink"   := "#ff69b4",
      "indianred" := "#cd5c5c",
      "indigo"    := "#4b0082",
      "ivory"     := "#fffff0",
      "khaki"     := "#f0e68c"
    ]
  }

  function ColorsL1(): map<string, string> {
    map[
      "lavenderblush"        := "#fff0f5",
      "lavender"             := "#e6e6fa",
      "lawngreen"            := "#7cfc00",
      "lemonchiffon"         := "#fffacd",
      "lightblue"            := "#add8e6",
      "lightcoral"           := "#f08080",
      "lightcyan"            := "#e0ffff",
      "lightgoldenrodyellow" := "#fafad2",
      "lightgray"            := "#d3d3d3",
      "lightgreen"           := "#90ee90",
      "lightgrey"            := "#d3d3d3"
    ]
  }

  function ColorsL2(): map<string, string> {
    map[
      "lightpink"      := "#ffb6c1",
      "lightsalmon"    := "#ffa07a",
      "lightseagreen"  := "#20b2aa",
      "lightskyblue"   := "#87cefa",
      "lightslategray" := "#778899",
      "lightslategrey" := "#778899",
      "lightsteelblue" := "#b0c4de",
      "lightyellow"    := "#ffffe0",
      "lime"           := "#00ff00",
      "limegreen"      := "#32cd32",
      "linen"          := "#faf0e6"
    ]
  }

  function ColorsM1(): map<string, string> {
    map[
      "magenta"          := "#ff00ff",
      "maroon"           := "#800000",
      "mediumaquamarine" := "#66cdaa",
      "mediumblue"       := "#0000cd",
      "mediumorchid"     := "#ba55d3",
      "mediumpurple"     := "#9370db",
      "mediumseagreen"   := "#3cb371"
    ]
  }

  function ColorsM2(): map<string, string> {
    map[
      "mediumslateblue"   := "#7b68ee",
      "mediumspringgreen" := "#00fa9a",
      "mediumturquoise"   := "#48d1cc",
      "mediumvioletred"   := "#c71585",
      "midnightblue"      := "#191970",
      "mintcream"         := "#f5fffa",
      "mistyrose"         := "#ffe4e1",
      "moccasin"          := "#ffe4b5"
    ]
  }

  function ColorsNO(): map<string, string> {
    map[
      "navajowhite" := "#ffdead",
      "navy"        := "#000080",
      "oldlace"     := "#fdf5e6",
      "olive"       := "#808000",
      "olivedrab"   := "#6b8e23",
      "orange"      := "#ffa500",
      "orangered"   := "#ff4500",
      "orchid"      := "#da70d6"
    ]
  }

  function ColorsPR(): map<string, string> {
    map[
      "palegoldenrod" := "#eee8aa",
      "palegreen"     := "#98fb98",
      "paleturquoise" := "#afeeee",
      "palevioletred" := "#db7093",
      "papayawhip"    := "#ffefd5",
      "peachpuff"     := "#ffdab9",
      "peru"          := "#cd853f",
      "pink"          := "#ffc0cb",
      "plum"          := "#dda0dd",
      "powderblue"    := "#b0e0e6",
      "purple"        := "#800080",
      "rebeccapurple" := "#663399",
      "red"           := "#ff0000",
      "rosybrown"     := "#bc8f8f",
      "royalblue"     := "#4169e1"
    ]
  }

  function ColorsS(): map<string, string> {
    map[
      "saddlebrown" := "#8b4513",
      "salmon"      := "#fa8072",
      "sandybrown"  := "#f4a460",
      "seagreen"    := "#2e8b57",
      "seashell"    := "#fff5ee",
      "sienna"      := "#a0522d",
      "silver"      := "#c0c0c0",
      "skyblue"     := "#87ceeb",
      "slateblue"   := "#6a5acd",
      "slategray"   := "#708090",
      "slategrey"   := "#708090",
      "snow"        := "#fffafa",
      "springgreen" := "#00ff7f",
      "steelblue"   := "#4682b4"
    ]
  }

  function ColorsTY(): map<string, string> {
    map[
      "tan"         := "#d2b48c",
      "teal"        := "#008080",
      "thistle"     := "#d8bfd8",
      "tomato"      := "#ff6347",
      "turquoise"   := "#40e0d0",
      "violet"      := "#ee82ee",
      "wheat"       := "#f5deb3",
      "white"       := "#ffffff",
      "whitesmoke"  := "#f5f5f5",
      "yellow"      := "#ffff00",
      "yellowgreen" := "#9acd32"
    ]
  }

  /** Every key is a colour name and every value a hex colour. */
  ghost predicate WellFormed(m: map<string, string>) {
    forall k :: k in m ==> IsColorName(k) && IsHexColor(m[k])
  }

  lemma WellFormedGroup(m: map<string, string>)
    requires forall k, i :: k in m && 0 <= i < |k| ==> 'a' <= k[i] <= 'z'
    requires forall k :: k in m ==> |k| > 0 && |m[k]| == 7 && m[k][0] == '#'
    requires forall k, i :: k in m && 1 <= i < 7 ==> IsLowerHexDigit(m[k][i])
    ensures WellFormed(m)
  {
  }

  lemma WellFormedUnion(a: map<string, string>, b: map<string, string>)
    requires WellFormed(a) && WellFormed(b)
    ensures WellFormed(a + b)
  {
  }

  lemma LowercaseKeysAB()
    ensures forall k, i :: k in ColorsAB() && 0 <= i < |k| ==> 'a' <= k[i] <= 'z'
  {}

  lemma HexValuesAB()
    ensures forall k :: k in ColorsAB() ==> |k| > 0 && |ColorsAB()[k]| == 7 && ColorsAB()[k][0] == '#'
    ensures forall k, i :: k in ColorsAB() && 1 <= i < 7 ==> IsLowerHexDigit(ColorsAB()[k][i])
  {}

  lemma GroupWellFormedAB()
    ensures WellFormed(ColorsAB())
  {
    LowercaseKeysAB();
    HexValuesAB();
    WellFormedGroup(ColorsAB());
  }

  lemma LowercaseKeysC()
    ensures forall k, i :: k in ColorsC() && 0 <= i < |k| ==> 'a' <= k[i] <= 'z'
  {}

  lemma HexValuesC()
    ensures forall k :: k in ColorsC() ==> |k| > 0 && |ColorsC()[k]| == 7 && ColorsC()[k][0] == '#'
    ensures forall k, i :: k in ColorsC() && 1 <= i < 7 ==> IsLowerHexDigit(ColorsC()[k][i])
  {}

  lemma GroupWellFormedC()
    ensures WellFormed(ColorsC())
  {
    LowercaseKeysC();
    HexValuesC();
    WellFormedGroup(ColorsC());
  }

  lemma LowercaseKeysD1()
    ensures forall k, i :: k in ColorsD1() && 0 <= i < |k| ==> 'a' <= k[i] <= 'z'
  {}

  lemma HexValuesD1()
    ensures forall k :: k in ColorsD1() ==> |k| > 0 && |ColorsD1()[k]| == 7 && ColorsD1()[k][0] == '#'
    ensures forall k, i :: k in ColorsD1() && 1 <= i < 7 ==> IsLowerHexDigit(ColorsD1()[k][i])
  {}

  lemma GroupWellFormedD1()
    ensures WellFormed(ColorsD1())
  {
    LowercaseKeysD1();
    HexValuesD1();
    WellFormedGroup(ColorsD1());
  }

  lemma LowercaseKeysD2()
    ensures forall k, i :: k in ColorsD2() && 0 <= i < |k| ==> 'a' <= k[i] <= 'z'
  {}

  lemma HexValuesD2()
    ensures forall k :: k in ColorsD2() ==> |k| > 0 && |ColorsD2()[k]| == 7 && ColorsD2()[k][0] == '#'
    ensures forall k, i :: k in ColorsD2() && 1 <= i < 7 ==> IsLowerHexDigit(ColorsD2()[k][i])
  {}

  lemma GroupWellFormedD2()
    ensures WellFormed(ColorsD2())
  {
    LowercaseKeysD2();
    HexValuesD2();
    WellFormedGroup(ColorsD2());
  }

  lemma LowercaseKeysFG()
    ensures forall k, i :: k in ColorsFG() && 0 <= i < |k| ==> 'a' <= k[i] <= 'z'
  {}

  lemma HexValuesFG()
    ensures forall k :: k in ColorsFG() ==> |k| > 0 && |ColorsFG()[k]| == 7 && ColorsFG()[k][0] == '#'
    ensures forall k, i :: k in ColorsFG() && 1 <= i < 7 ==> IsLowerHexDigit(ColorsFG()[k][i])
  {}

  lemma GroupWellFormedFG()
    ensures WellFormed(ColorsFG())
  {
    LowercaseKeysFG();
    HexValuesFG();
    WellFormedGroup(ColorsFG());
  }

  lemma LowercaseKeysHK()
    ensures forall k, i :: k in ColorsHK() && 0 <= i < |k| ==> 'a' <= k[i] <= 'z'
  {}

  lemma HexValuesHK()
    ensures forall k :: k in ColorsHK() ==> |k| > 0 && |ColorsHK()[k]| == 7 && ColorsHK()[k][0] == '#'
    ensures forall k, i :: k in ColorsHK() && 1 <= i < 7 ==> IsLowerHexDigit(ColorsHK()[k][i])
  {}

  lemma GroupWellFormedHK()
    ensures WellFormed(ColorsHK())
  {
    LowercaseKeysHK();
    HexValuesHK();
    WellFormedGroup(ColorsHK());
  }

  lemma LowercaseKeysL1()
    ensures forall k, i :: k in ColorsL1() && 0 <= i < |k| ==> 'a' <= k[i] <= 'z'
  {}

  lemma HexValuesL1()
    ensures forall k :: k in ColorsL1() ==> |k| > 0 && |ColorsL1()[k]| == 7 && ColorsL1()[k][0] == '#'
    ensures forall k, i :: k in ColorsL1() && 1 <= i < 7 ==> IsLowerHexDigit(ColorsL1()[k][i])
  {}

  lemma GroupWellFormedL1()
    ensures WellFormed(ColorsL1())
  {
    LowercaseKeysL1();
    HexValuesL1();
    WellFormedGroup(ColorsL1());
  }

  lemma LowercaseKeysL2()
    ensures forall k, i :: k in ColorsL2() && 0 <= i < |k| ==> 'a' <= k[i] <= 'z'
  {}

  lemma HexValuesL2()
    ensures forall k :: k in ColorsL2() ==> |k| > 0 && |ColorsL2()[k]| == 7 && ColorsL2()[k][0] == '#'
    ensures forall k, i :: k in ColorsL2() && 1 <= i < 7 ==> IsLowerHexDigit(ColorsL2()[k][i])
  {}

  lemma GroupWellFormedL2()
    ensures WellFormed(ColorsL2())
  {
    LowercaseKeysL2();
    HexValuesL2();
    WellFormedGroup(ColorsL2());
  }

  lemma LowercaseKeysM1()
    ensures forall k, i :: k in ColorsM1() && 0 <= i < |k| ==> 'a' <= k[i] <= 'z'
  {}

  lemma HexValuesM1()
    ensures forall k :: k in ColorsM1() ==> |k| > 0 && |ColorsM1()[k]| == 7 && ColorsM1()[k][0] == '#'
    ensures forall k, i :: k in ColorsM1() && 1 <= i < 7 ==> IsLowerHexDigit(ColorsM1()[k][i])
  {}

  lemma GroupWellFormedM1()
    ensures WellFormed(ColorsM1())
  {
    LowercaseKeysM1();
    HexValuesM1();
    WellFormedGroup(ColorsM1());
  }

  lemma LowercaseKeysM2()
    ensures forall k, i :: k in ColorsM2() && 0 <= i < |k| ==> 'a' <= k[i] <= 'z'
  {}

  lemma HexValuesM2()
    ensures forall k :: k in ColorsM2() ==> |k| > 0 && |ColorsM2()[k]| == 7 && ColorsM2()[k][0] == '#'
    ensures forall k, i :: k in ColorsM2() && 1 <= i < 7 ==> IsLowerHexDigit(ColorsM2()[k][i])
  {}

  lemma GroupWellFormedM2()
    ensures WellFormed(ColorsM2())
  {
    LowercaseKeysM2();
    HexValuesM2();
    WellFormedGroup(ColorsM2());
  }

  lemma LowercaseKeysNO()
    ensures forall k, i :: k in ColorsNO() && 0 <= i < |k| ==> 'a' <= k[i] <= 'z'
  {}

  lemma HexValuesNO()
    ensures forall k :: k in ColorsNO() ==> |k| > 0 && |ColorsNO()[k]| == 7 && ColorsNO()[k][0] == '#'
    ensures forall k, i :: k in ColorsNO() && 1 <= i < 7 ==> IsLowerHexDigit(ColorsNO()[k][i])
  {}

  lemma GroupWellFormedNO()
    ensures WellFormed(ColorsNO())
  {
    LowercaseKeysNO();
    HexValuesNO();
    WellFormedGroup(ColorsNO());
  }

  lemma LowercaseKeysPR()
    ensures forall k, i :: k in ColorsPR() && 0 <= i < |k| ==> 'a' <= k[i] <= 'z'
  {}

  lemma HexValuesPR()
    ensures forall k :: k in ColorsPR() ==> |k| > 0 && |ColorsPR()[k]| == 7 && ColorsPR()[k][0] == '#'
    ensures forall k, i :: k in ColorsPR() && 1 <= i < 7 ==> IsLowerHexDigit(ColorsPR()[k][i])
  {}

  lemma GroupWellFormedPR()
    ensures WellFormed(ColorsPR())
  {
    LowercaseKeysPR();
    HexValuesPR();
    WellFormedGroup(ColorsPR());
  }

  lemma LowercaseKeysS()
    ensures forall k, i :: k in ColorsS() && 0 <= i < |k| ==> 'a' <= k[i] <= 'z'
  {}

  lemma HexValuesS()
    ensures forall k :: k in ColorsS() ==> |k| > 0 && |ColorsS()[k]| == 7 && ColorsS()[k][0] == '#'
    ensures forall k, i :: k in ColorsS() && 1 <= i < 7 ==> IsLowerHexDigit(ColorsS()[k][i])
  {}

  lemma GroupWellFormedS()
    ensures WellFormed(ColorsS())
  {
    LowercaseKeysS();
    HexValuesS();
    WellFormedGroup(ColorsS());
  }

  lemma LowercaseKeysTY()
    ensures forall k, i :: k in ColorsTY() && 0 <= i < |k| ==> 'a' <= k[i] <= 'z'
  {}

  lemma HexValuesTY()
    ensures forall k :: k in ColorsTY() ==> |k| > 0 && |ColorsTY()[k]| == 7 && ColorsTY()[k][0] == '#'
    ensures forall k, i :: k in ColorsTY() && 1 <= i < 7 ==> IsLowerHexDigit(ColorsTY()[k][i])
  {}

  lemma GroupWellFormedTY()
    ensures WellFormed(ColorsTY())
  {
    LowercaseKeysTY();
    HexValuesTY();
    WellFormedGroup(ColorsTY());
  }

  /** Every key of the table is a colour name and every value a hex colour. */
  lemma TableWellFormed()
    ensures WellFormed(Colors())
  {
    GroupWellFormedAB();
    var table := ColorsAB();
    GroupWellFormedC();
    WellFormedUnion(table, ColorsC());
    table := table + ColorsC();
    GroupWellFormedD1();
    WellFormedUnion(table, ColorsD1());
    table := table + ColorsD1();
    GroupWellFormedD2();
    WellFormedUnion(table, ColorsD2());
    table := table + ColorsD2();
    GroupWellFormedFG();
    WellFormedUnion(table, ColorsFG());
    table := table + ColorsFG();
    GroupWellFormedHK();
    WellFormedUnion(table, ColorsHK());
    table := table + ColorsHK();
    GroupWellFormedL1();
    WellFormedUnion(table, ColorsL1());
    table := table + ColorsL1();
    GroupWellFormedL2();
    WellFormedUnion(table, ColorsL2());
    table := table + ColorsL2();
    GroupWellFormedM1();
    WellFormedUnion(table, ColorsM1());
    table := table + ColorsM1();
    GroupWellFormedM2();
    WellFormedUnion(table, ColorsM2());
    table := table + ColorsM2();
    GroupWellFormedNO();
    WellFormedUnion(table, ColorsNO());
    table := table + ColorsNO();
    GroupWellFormedPR();
    WellFormedUnion(table, ColorsPR());
    table := table + ColorsPR();
    GroupWellFormedS();
    WellFormedUnion(table, ColorsS());
    table := table + ColorsS();
    GroupWellFormedTY();
    WellFormedUnion(table, ColorsTY());
    table := table + ColorsTY();
    assert table == Colors();
  }

  /** A hex colour starts with `#`, so in a well-formed table no value is a key. */
  lemma ValuesAreNotKeys(m: map<string, string>)
    requires WellFormed(m)
    ensures forall k :: k in m ==> m[k] !in m
  {
    forall k | k in m
      ensures m[k] !in m
    {
      assert !IsLowerLetter(m[k][0]);
    }
  }

  /** The Go index expression `m[name]`: the entry, or the zero string when `name` is not a key. */
  function Lookup(m: map<string, string>, name: string): string {
    if name in m then m[name] else ""
  }

  /** In the command's table no value is empty, so an empty lookup means exactly an unknown name. */
  lemma EmptyLookupMeansUnknown(name: string)
    ensures Lookup(Colors(), name) == "" <==> name !in Colors()
  {
    TableWellFormed();
  }

  /**
   The substitution of the `--color` value against the colour map `m`: the
   looked-up string replaces the input when it is non-empty. On a well-formed
   map a key becomes exactly its value and anything else, the empty string
   included, is passed through.
   */
  function Substitute(m: map<string, string>, color: string): (r: string)
    ensures r == color || (color in m && r == m[color])
    ensures WellFormed(m) && color in m ==> r == m[color]
    ensures WellFormed(m) && color !in m ==> r == color
  {
    var c := Lookup(m, color);
    if |c| > 0 then c else color
  }

  /** Substituting twice is substituting once, for any well-formed map. */
  lemma SubstituteIdempotent(m: map<string, string>, color: string)
    requires WellFormed(m)
    ensures Substitute(m, Substitute(m, color)) == Substitute(m, color)
  {
    if color in m {
      ValuesAreNotKeys(m);
    }
  }

  /**
   Lookup is exact: on a well-formed map, an input that is not a lowercase
   letter run (it is empty, or it holds an upper-case letter, a digit, `#`,
   ...) is never substituted.
   */
  lemma OnlyColorNamesSubstituted(m: map<string, string>, color: string)
    requires WellFormed(m)
    requires !IsColorName(color)
    ensures Substitute(m, color) == color
  {
  }

  /** The command's own table: a name becomes its value, anything else is kept, and twice is once. */
  lemma TableSubstitution(color: string)
    ensures color in Colors() ==> Substitute(Colors(), color) == Colors()[color]
    ensures color !in Colors() ==> Substitute(Colors(), color) == color
    ensures Substitute(Colors(), Substitute(Colors(), color)) == Substitute(Colors(), color)
  {
    TableWellFormed();
    SubstituteIdempotent(Colors(), color);
  }

  /** `red` of CSS Color Module Level 4, section 6.1, as the table holds it. */
  lemma CssRed()
    ensures "red" in Colors() && Colors()["red"] == "#ff0000"
  {
    assert ColorsPR()["red"] == "#ff0000";
    assert "red" !in ColorsS() && "red" !in ColorsTY();
  }

  /** `rebeccapurple`, the Level 4 addition to the named colours, as the table holds it. */
  lemma CssRebeccaPurple()
    ensures "rebeccapurple" in Colors() && Colors()["rebeccapurple"] == "#663399"
  {
    assert ColorsPR()["rebeccapurple"] == "#663399";
    assert "rebeccapurple" !in ColorsS() && "rebeccapurple" !in ColorsTY();
  }

  /** The substitution on a known name, on the same name capitalised, and on a hex code. */
  lemma SubstituteExamples()
    ensures Substitute(Colors(), "red") == "#ff0000"
    ensures Substitute(Colors(), "Red") == "Red"
    ensures Substitute(Colors(), "#ff0000") == "#ff0000"
  {
    CssRed();
    TableWellFormed();
    assert !IsLowerLetter("Red"[0]);
    OnlyColorNamesSubstituted(Colors(), "Red");
    assert !IsLowerLetter("#ff0000"[0]);
    OnlyColorNamesSubstituted(Colors(), "#ff0000");
  }
}
