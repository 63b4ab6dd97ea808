/**
 * The outfit planner: the colour picker's `#rrggbb` value is parsed into three
 * channels, an ordered chain of tests names the colour (one of eleven names)
 * and the name selects a constant set of makeup and accessory suggestions.
 *
 * The picker is outside the model; the browser hands the page a seven-character
 * simple colour, which is what the handler requires.
 */
module OutfitPage {
  import opened Numbers
  import ColorAnalysis

  datatype Category = Category(foundation: string, blush: string, lipstick: string, earrings: string)

  const ColorCategories: map<string, Category> := map[
    "red" := Category("Neutral or slightly warm", "Soft Rose or Peach", "Classic Red or Nude Pink", "Silver or Gold"),
    "pink" := Category("Cool or neutral", "Cool Pink or Soft Berry", "Fuchsia or Baby Pink", "Silver or Rose Gold"),
    "blue" := Category("Cool or neutral", "Soft Pink or Plum", "Nude or Berry", "Silver"),
    "green" := Category("Warm or neutral", "Peach or Terracotta", "Coral or Warm Nude", "Gold"),
    "yellow" := Category("Warm or golden", "Warm Peach or Coral", "Peachy Nude or Bright Coral", "Gold"),
    "orange" := Category("Warm", "Terracotta or Bronze", "Orange-Red or Spiced Nude", "Gold"),
    "purple" := Category("Cool or neutral", "Plum or Cool Pink", "Deep Berry or Lavender Pink", "Silver"),
    "black" := Category("Match your skin", "Any - can be bold", "Bold Red, Deep Berry, or Nude", "Any metal - statement or classic"),
    "white" := Category("Match your skin", "Soft Pink or Peach", "Nude Pink or Coral", "Any metal - pearls look great"),
    "gray" := Category("Cool or neutral", "Cool Pink or Soft Mauve", "Berry or Muted Rose", "Silver or Gunmetal"),
    "brown" := Category("Warm", "Warm Bronze or Terracotta", "Earthy Nude or Brick Red", "Gold or Bronze")
  ]

  // ---------------------------------------------------------------------------
  // getDominantColorName
  // ---------------------------------------------------------------------------

  // The five threshold tests among the seven colour tests tried before
  // brightness is looked at. Each one's contract says which later tests it
  // shadows or is shadowed by.

  /** Red: red largest and above 150, green and blue below 100; it excludes every other test. */
  predicate IsRedTest(r: int, g: int, b: int)
    ensures IsRedTest(r, g, b) ==>
      && !IsPinkTest(r, g, b) && !IsYellowTest(r, g, b) && !IsOrangeTest(r, g, b) && !IsPurpleTest(r, g, b)
      && !(b > r && b > g) && !(g > r && g > b)
  {
    r > g && r > b && r > 150 && g < 100 && b < 100
  }

  /** Pink: every channel high (sum above 500); it excludes yellow, orange and purple. */
  predicate IsPinkTest(r: int, g: int, b: int)
    ensures IsPinkTest(r, g, b) ==> r + g + b > 500 && !IsYellowTest(r, g, b) && !IsOrangeTest(r, g, b) && !IsPurpleTest(r, g, b)
  {
    r > 200 && g > 150 && b > 150
  }

  /** Yellow: red and green above 150, blue below 100; it excludes purple. */
  predicate IsYellowTest(r: int, g: int, b: int)
    ensures IsYellowTest(r, g, b) ==> !IsPurpleTest(r, g, b)
  {
    r > 150 && g > 150 && b < 100
  }

  /** Orange: its part with green above 150 is shadowed by the yellow test; it excludes purple. */
  predicate IsOrangeTest(r: int, g: int, b: int)
    ensures IsOrangeTest(r, g, b) && g > 150 ==> IsYellowTest(r, g, b)
    ensures IsOrangeTest(r, g, b) ==> !IsPurpleTest(r, g, b)
  {
    r > 200 && g > 100 && g < 200 && b < 100
  }

  /** Purple: red and blue above 100 with green below 100, so green is never the largest channel. */
  predicate IsPurpleTest(r: int, g: int, b: int)
    ensures IsPurpleTest(r, g, b) ==> !(g > r && g > b)
  {
    r > 100 && b > 100 && g < 100
  }

  /**
   * The colour name of (r, g, b): the first test that holds among red, pink,
   * blue (blue strictly largest), green (green strictly largest), yellow,
   * orange and purple; then black, white, grey or brown by brightness
   * `(r + g + b) / 3`; otherwise the largest channel.
   */
  function GetDominantColorName(r: int, g: int, b: int): (name: string)
    ensures name in ColorCategories
  {
    if IsRedTest(r, g, b) then "red"
    else if IsPinkTest(r, g, b) then "pink"
    else if b > r && b > g then "blue"
    else if g > r && g > b then "green"
    else if IsYellowTest(r, g, b) then "yellow"
    else if IsOrangeTest(r, g, b) then "orange"
    else if IsPurpleTest(r, g, b) then "purple"
    else
      var brightness := (r + g + b) as real / 3.0;
      if brightness < 50.0 then "black"
      else if brightness > 220.0 then "white"
      else if Abs(r - g) < 20 && Abs(g - b) < 20 then
        (if brightness < 180.0 then "gray" else "brown")
      else
        var max := Max(Max(r, g), b);
        if max == r then "red" else if max == g then "green" else "blue"
  }

  /** A strongly red colour with red strictly largest is named red. */
  lemma StrongRedIsRed(r: int, g: int, b: int)
    requires r > g && r > b && r > 150 && g < 100 && b < 100
    ensures GetDominantColorName(r, g, b) == "red"
  {
  }

  /** The pink test runs before the brightness tests: pure white is named pink. */
  lemma PureWhiteIsPink()
    ensures GetDominantColorName(255, 255, 255) == "pink"
  {
  }

  /**
   * Among byte colours, `white` is named only when green equals blue, red is
   * at most 200 and the channel sum exceeds 660 (so green and blue are above
   * 230): every other very bright colour is caught by the pink, blue or
   * green test first.
   */
  lemma WhiteExactly(r: Byte, g: Byte, b: Byte)
    ensures GetDominantColorName(r, g, b) == "white" <==> g == b && r <= 200 && r + g + b > 660
  {
  }

  /** With blue strictly largest the name is blue, unless the colour passes the pink test. */
  lemma BlueLargestIsBlue(r: int, g: int, b: int)
    requires b > r && b > g && !IsPinkTest(r, g, b)
    ensures GetDominantColorName(r, g, b) == "blue"
  {
  }

  /** With green strictly largest the name is green, unless the colour passes the pink test. */
  lemma GreenLargestIsGreen(r: int, g: int, b: int)
    requires g > r && g > b && !IsPinkTest(r, g, b)
    ensures GetDominantColorName(r, g, b) == "green"
  {
  }

  /**
   * Orange needs red above 200, green in (100, 150] and blue below 100: a
   * green above 150 is caught by yellow (or green) first.
   */
  lemma OrangeRange(r: int, g: int, b: int)
    ensures GetDominantColorName(r, g, b) == "orange" ==> r > 200 && 100 < g <= 150 && b < 100
    ensures r > 200 && 150 < g <= r && g < 200 && b < 100 ==> GetDominantColorName(r, g, b) == "yellow"
  {
  }

  /** Orange is reachable, for example for (255, 120, 0). */
  lemma OrangeReachable()
    ensures GetDominantColorName(255, 120, 0) == "orange"
  {
  }

  /**
   * When none of the seven colour tests fires, the channel sum decides: below
   * 150 black, above 660 white, a near-grey below 540 gray and above brown;
   * otherwise the largest channel, ties going to red, then green, then blue.
   */
  lemma BrightnessRules(r: int, g: int, b: int)
    requires !IsRedTest(r, g, b) && !IsPinkTest(r, g, b)
    requires !(b > r && b > g) && !(g > r && g > b)
    requires !IsYellowTest(r, g, b) && !IsOrangeTest(r, g, b) && !IsPurpleTest(r, g, b)
    ensures var s := r + g + b;
      GetDominantColorName(r, g, b) ==
        if s < 150 then "black"
        else if s > 660 then "white"
        else if -20 < r - g < 20 && -20 < g - b < 20 then (if s < 540 then "gray" else "brown")
        else if r >= g && r >= b then "red"
        else if g >= b then "green"
        else "blue"
  {
  }

  // ---------------------------------------------------------------------------
  // Parsing the picker value and the change handler
  // ---------------------------------------------------------------------------

  /** The picker value: at least seven characters whose characters 1 to 6 are hexadecimal digits. */
  predicate IsPickerValue(hex: string) {
    |hex| >= 7 && AllHexDigits(hex[1..3]) && AllHexDigits(hex[3..5]) && AllHexDigits(hex[5..7])
  }

  /**
   * `parseInt(hex.slice(1, 3), 16)` and the same for green and blue: each
   * channel is the value of its two digits, so it is a byte. The first
   * character and anything after the seventh are ignored.
   */
  function ParseHexColor(hex: string): (c: ColorAnalysis.Rgb)
    requires IsPickerValue(hex)
    ensures c.r == ParseHex(hex[1..3]) && c.g == ParseHex(hex[3..5]) && c.b == ParseHex(hex[5..7])
  {
    ParseHexPairIsByte(hex[1..3]);
    ParseHexPairIsByte(hex[3..5]);
    ParseHexPairIsByte(hex[5..7]);
    ColorAnalysis.Rgb(ParseHex(hex[1..3]), ParseHex(hex[3..5]), ParseHex(hex[5..7]))
  }

  /** Parsing what the colour library's rgbToHex prints gives the colour back. */
  lemma ParseRgbToHex(c: ColorAnalysis.Rgb)
    ensures IsPickerValue(ColorAnalysis.RgbToHex(c))
    ensures ParseHexColor(ColorAnalysis.RgbToHex(c)) == c
  {
    var hex := ColorAnalysis.RgbToHex(c);
    ParseHexByte(c.r);
    ParseHexByte(c.g);
    ParseHexByte(c.b);
  }

  /** The planner's state: the picked colour and the suggestions shown for it. */
  datatype PlannerState = PlannerState(dressColor: string, recommendations: Category)

  /** `COLOR_CATEGORIES.white`: the suggestions shown first and the lookup's fallback. */
  const WhiteCategory: Category := ColorCategories["white"]

  /** The page opens on white with the white suggestions. */
  const InitialState: PlannerState := PlannerState("#ffffff", WhiteCategory)

  /**
   * handleColorChange: remember the picked value and show the suggestions of
   * its colour name. The name is always a key of the table, so the white
   * fallback is never used.
   */
  function HandleColorChange(hex: string): (state: PlannerState)
    requires IsPickerValue(hex)
    ensures state.dressColor == hex
    ensures var c := ParseHexColor(hex);
      state.recommendations == ColorCategories[GetDominantColorName(c.r, c.g, c.b)]
  {
    var c := ParseHexColor(hex);
    var colorName := GetDominantColorName(c.r, c.g, c.b);
    PlannerState(hex, if colorName in ColorCategories then ColorCategories[colorName] else WhiteCategory)
  }

  /**
   * The suggestions the page opens with are not the ones it shows once its
   * own initial colour is picked: `#ffffff` is named pink.
   */
  lemma InitialStateNotReproduced()
    ensures IsPickerValue(InitialState.dressColor)
    ensures HandleColorChange(InitialState.dressColor).recommendations == ColorCategories["pink"]
    ensures HandleColorChange(InitialState.dressColor).recommendations != InitialState.recommendations
  {
    var hex := InitialState.dressColor;
    assert hex[1..3] == "ff" && hex[3..5] == "ff" && hex[5..7] == "ff";
    assert ParseHex("ff") == 255 by {
      assert "ff"[..1] == "f";
    }
    PureWhiteIsPink();
  }
}
