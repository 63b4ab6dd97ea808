/**
 * The home page's season classifier: average a small rectangle of the uploaded
 * photo (every pixel counts, nothing is filtered), call the average Warm, Cool
 * or Neutral from channel differences, split Warm and Cool by brightness into
 * four seasons and look the season up in four constant tables (wear, avoid,
 * necklines, hair colours).
 *
 * The canvas is outside the model: the page draws the photo and reads back the
 * RGBA bytes of the rectangle, and those bytes enter the model as a parameter.
 * React state becomes the fields of the class `ColorAnalysisPage`.
 */
module HomePage {
  import opened Numbers

  // ---------------------------------------------------------------------------
  // The four season tables
  // ---------------------------------------------------------------------------

  datatype ShapeAdvice = ShapeAdvice(necklines: seq<string>, advice: string)

  datatype HairAdvice = HairAdvice(colors: seq<string>, advice: string)

  /** The five names every table is keyed by. */
  function SeasonKeys(): set<string> {
    {"Warm Spring", "Warm Autumn", "Cool Summer", "Cool Winter", "Neutral"}
  }

  const ColorPalettes: map<string, seq<string>> := map[
    "Warm Spring" := ["#FFDAB3", "#FFA07A", "#FFD700", "#FF6F61", "#FFC0CB"],
    "Warm Autumn" := ["#C68642", "#8B4513", "#D2691E", "#A0522D", "#B87333"],
    "Cool Summer" := ["#AEC6CF", "#B0E0E6", "#778899", "#C3CDE6", "#D8BFD8"],
    "Cool Winter" := ["#0F52BA", "#191970", "#8A2BE2", "#DC143C", "#2F4F4F"],
    "Neutral" := ["#F5F5DC", "#E6E6FA", "#F0E68C", "#D2B48C", "#C0C0C0"]
  ]

  const AvoidPalettes: map<string, seq<string>> := map[
    "Warm Spring" := ["#000080", "#4B0082", "#800080", "#A9A9A9", "#000000"],
    "Warm Autumn" := ["#ADD8E6", "#E0FFFF", "#FFB6C1", "#DDA0DD", "#FFFFFF"],
    "Cool Summer" := ["#FFA500", "#FF4500", "#B8860B", "#8B4513", "#FFD700"],
    "Cool Winter" := ["#F4A460", "#FFDEAD", "#EEE8AA", "#F5DEB3", "#D2B48C"],
    "Neutral" := []
  ]

  const ClothingShapeAdvice: map<string, ShapeAdvice> := map[
    "Warm Spring" := ShapeAdvice(["Scoop Neck", "Sweetheart", "Square Neck"],
      "Open and soft necklines complement your fresh, vibrant coloring and create an inviting look."),
    "Warm Autumn" := ShapeAdvice(["V-Neck", "Cowl Neck", "Turtleneck"],
      "Defined and structured necklines enhance your rich, earthy tones and create a sophisticated silhouette."),
    "Cool Summer" := ShapeAdvice(["Boat Neck", "Round Neck", "Off-the-Shoulder"],
      "Graceful, flowing necklines harmonize with your soft, cool palette for an elegant appearance."),
    "Cool Winter" := ShapeAdvice(["V-Neck", "Asymmetrical", "High Neck"],
      "Sharp, dramatic necklines accentuate your bold, crisp coloring and create a striking statement."),
    "Neutral" := ShapeAdvice(["Crew Neck", "V-Neck", "Boat Neck"],
      "Classic and versatile necklines work well with your balanced tones, offering a wide range of flattering options.")
  ]

  const HairColorAdvice: map<string, HairAdvice> := map[
    "Warm Spring" := HairAdvice(["Golden Blonde", "Honey Brown", "Strawberry Blonde", "Light Auburn"],
      "Warm, golden hues will illuminate your complexion and bring out the natural warmth in your skin."),
    "Warm Autumn" := HairAdvice(["Rich Auburn", "Chocolate Brown", "Mahogany", "Caramel Highlights"],
      "Deep, rich, and earthy hair colors will complement your natural coloring and add a sophisticated warmth."),
    "Cool Summer" := HairAdvice(["Ash Blonde", "Light Ash Brown", "Cool Brunette", "Silver Tones"],
      "Cool, ashy tones will harmonize with your soft complexion and prevent any brassiness."),
    "Cool Winter" := HairAdvice(["Jet Black", "Dark Cool Brown", "Blue-Black", "Deep Burgundy"],
      "Bold, striking and cool-toned hair colors will create a stunning contrast with your skin tone."),
    "Neutral" := HairAdvice(["Natural Brown", "Beige Blonde", "Muted Copper", "Soft Black"],
      "A wide range of colors can work for you. Stick close to your natural shade or choose muted versions of other tones.")
  ]

  /** The four tables are keyed by exactly the same five season names. */
  lemma TablesShareKeys()
    ensures ColorPalettes.Keys == SeasonKeys()
    ensures AvoidPalettes.Keys == SeasonKeys()
    ensures ClothingShapeAdvice.Keys == SeasonKeys()
    ensures HairColorAdvice.Keys == SeasonKeys()
  {
  }

  /**
   * `COLOR_PALETTES[season] || COLOR_PALETTES['Neutral']`: a season's palette,
   * the Neutral one for a name outside the table. Every palette has five colours.
   */
  function PaletteFor(season: string): (p: seq<string>)
    ensures |p| == 5
    ensures season in SeasonKeys() ==> p == ColorPalettes[season]
    ensures season !in SeasonKeys() ==> p == ColorPalettes["Neutral"]
  {
    if season in ColorPalettes then ColorPalettes[season] else ColorPalettes["Neutral"]
  }

  /**
   * `AVOID_PALETTES[season] || []`: five colours to avoid for the four warm and
   * cool seasons, none for Neutral or a name outside the table.
   */
  function AvoidFor(season: string): (a: seq<string>)
    ensures |a| == (if season in SeasonKeys() && season != "Neutral" then 5 else 0)
    ensures season in SeasonKeys() ==> a == AvoidPalettes[season]
  {
    if season in AvoidPalettes then AvoidPalettes[season] else []
  }

  // ---------------------------------------------------------------------------
  // The sample rectangle and its average
  // ---------------------------------------------------------------------------

  datatype Rect = Rect(x: nat, y: nat, w: nat, h: nat)

  /**
   * The rectangle read back from a canvas of the photo's size: 8% of the width
   * by 5% of the height, but never below 10 by 10, with its top-left corner at
   * 45% of the width and 60% of the height.
   */
  function SampleRect(width: nat, height: nat): (rect: Rect)
    ensures rect.w >= 10 && rect.h >= 10
    ensures rect.w == Max(10, (2 * width) / 25) && rect.h == Max(10, height / 20)
    ensures 20 * rect.x <= 9 * width < 20 * rect.x + 20
    ensures 5 * rect.y <= 3 * height < 5 * rect.y + 5
  {
    Rect((9 * width) / 20, (3 * height) / 5, Max(10, (2 * width) / 25), Max(10, height / 20))
  }

  /** The RGBA bytes of a rectangle: four per pixel, row after row. */
  predicate IsRectData(data: seq<Byte>, rect: Rect) {
    |data| == 4 * (rect.w * rect.h)
  }

  /** The bytes of the sample rectangle hold at least one hundred whole pixels. */
  lemma RectDataShape(data: seq<Byte>, rect: Rect)
    requires rect.w >= 10 && rect.h >= 10 && IsRectData(data, rect)
    ensures |data| % 4 == 0 && |data| >= 400
  {
    assert rect.w * rect.h >= 10 * rect.h >= 100;
  }

  /**
   * Channel k (0 red, 1 green, 2 blue) summed over the first n pixels of an
   * RGBA buffer; the bytes are at most 255, so the sum is at most 255 n.
   */
  function ChannelSum(data: seq<Byte>, k: nat, n: nat): (sum: nat)
    requires k < 3 && 4 * n <= |data|
    ensures sum <= 255 * n
  {
    if n == 0 then 0 else ChannelSum(data, k, n - 1) + data[4 * (n - 1) + k]
  }

  /** The next pixel, at byte offset i = 4n, adds its red, green and blue bytes. */
  lemma ChannelSumStep(data: seq<Byte>, n: nat, i: nat)
    requires i == 4 * n && i + 4 <= |data|
    ensures ChannelSum(data, 0, n + 1) == ChannelSum(data, 0, n) + data[i]
    ensures ChannelSum(data, 1, n + 1) == ChannelSum(data, 1, n) + data[i + 1]
    ensures ChannelSum(data, 2, n + 1) == ChannelSum(data, 2, n) + data[i + 2]
  {
  }

  /** Math.round of channel k's mean over every pixel of the buffer. */
  function ChannelMean(data: seq<Byte>, k: nat): (v: Byte)
    requires k < 3 && |data| % 4 == 0 && |data| > 0
    ensures var n := |data| / 4;
      n * (2 * v - 1) <= 2 * ChannelSum(data, k, n) < n * (2 * v + 1)
  {
    var n := |data| / 4;
    RoundDivBetween(ChannelSum(data, k, n), n, 0, 255);
    RoundDiv(ChannelSum(data, k, n), n)
  }

  /**
   * Lines 143-152 of the page: sum red, green and blue over every pixel of the
   * buffer, stepping four bytes at a time, and round each sum divided by the
   * pixel count.
   */
  method AverageRect(data: seq<Byte>) returns (r: Byte, g: Byte, b: Byte)
    requires |data| % 4 == 0 && |data| > 0
    ensures r == ChannelMean(data, 0) && g == ChannelMean(data, 1) && b == ChannelMean(data, 2)
  {
    var rSum: nat, gSum: nat, bSum: nat, count: nat := 0, 0, 0, 0;
    var i := 0;
    while i < |data|
      invariant i == 4 * count && i <= |data|
      invariant rSum == ChannelSum(data, 0, count)
      invariant gSum == ChannelSum(data, 1, count)
      invariant bSum == ChannelSum(data, 2, count)
    {
      ChannelSumStep(data, count, i);
      rSum := rSum + data[i];
      gSum := gSum + data[i + 1];
      bSum := bSum + data[i + 2];
      count := count + 1;
      i := i + 4;
    }
    assert count == |data| / 4;
    r := ChannelMean(data, 0);
    g := ChannelMean(data, 1);
    b := ChannelMean(data, 2);
    assert r == RoundDiv(rSum, count);
  }

  /** Every pixel of the buffer has the colour (r, g, b). */
  predicate UniformRect(data: seq<Byte>, r: Byte, g: Byte, b: Byte)
    requires |data| % 4 == 0
  {
    forall p :: 0 <= p < |data| / 4 ==> data[4 * p] == r && data[4 * p + 1] == g && data[4 * p + 2] == b
  }

  /** A channel whose byte is v in each of the first n pixels sums to v n. */
  lemma {:induction false} ChannelSumConstant(data: seq<Byte>, k: nat, v: Byte, n: nat)
    requires k < 3 && 4 * n <= |data|
    requires forall p :: 0 <= p < n ==> data[4 * p + k] == v
    ensures ChannelSum(data, k, n) == v * n
  {
    if n > 0 {
      ChannelSumConstant(data, k, v, n - 1);
      assert data[4 * (n - 1) + k] == v;
      assert v * (n - 1) + v == v * n;
    }
  }

  lemma ChannelSumUniform(data: seq<Byte>, r: Byte, g: Byte, b: Byte, n: nat)
    requires |data| % 4 == 0 && UniformRect(data, r, g, b) && 4 * n <= |data|
    ensures ChannelSum(data, 0, n) == r * n
    ensures ChannelSum(data, 1, n) == g * n
    ensures ChannelSum(data, 2, n) == b * n
  {
    ChannelSumConstant(data, 0, r, n);
    ChannelSumConstant(data, 1, g, n);
    ChannelSumConstant(data, 2, b, n);
  }

  /** A rectangle of one colour averages to that colour, whatever its size. */
  lemma AverageOfUniformRect(data: seq<Byte>, r: Byte, g: Byte, b: Byte)
    requires |data| % 4 == 0 && |data| > 0 && UniformRect(data, r, g, b)
    ensures ChannelMean(data, 0) == r && ChannelMean(data, 1) == g && ChannelMean(data, 2) == b
  {
    var n := |data| / 4;
    ChannelSumUniform(data, r, g, b, n);
    RoundDivExact(r, n);
    RoundDivExact(g, n);
    RoundDivExact(b, n);
  }

  // ---------------------------------------------------------------------------
  // Undertone and season
  // ---------------------------------------------------------------------------

  /** Warm: red leads green by more than 8 and blue by more than 6, so red is the largest channel. */
  predicate IsWarm(r: int, g: int, b: int)
    ensures IsWarm(r, g, b) ==> r > g && r > b
  {
    r - g > 8 && r - b > 6
  }

  /**
   * Cool: blue leads red by more than 6 and green by more than 4, so blue is
   * the largest channel and a cool colour is never warm.
   */
  predicate IsCool(r: int, g: int, b: int)
    ensures IsCool(r, g, b) ==> b > r && b > g && !IsWarm(r, g, b)
  {
    b - r > 6 && b - g > 4
  }

  /**
   * The undertone of an average colour: Warm when red leads both other
   * channels, Cool when blue does, Neutral otherwise. The two tests never hold
   * together, so the order in which the page tries them does not matter.
   */
  function UndertoneOf(r: int, g: int, b: int): (u: string)
    ensures u in {"Warm", "Cool", "Neutral"}
    ensures u == "Warm" <==> IsWarm(r, g, b)
    ensures u == "Cool" <==> IsCool(r, g, b)
  {
    if IsWarm(r, g, b) then "Warm" else if IsCool(r, g, b) then "Cool" else "Neutral"
  }

  /**
   * `(r + g + b) / 3` as an exact real number. The page's season cut-offs 140
   * and 130 fall exactly on the channel sums 420 and 390.
   */
  function Brightness(r: int, g: int, b: int): (br: real)
    ensures br > 140.0 <==> r + g + b > 420
    ensures br > 130.0 <==> r + g + b > 390
  {
    (r + g + b) as real / 3.0
  }

  /**
   * The season: a bright warm colour is Warm Spring and a dark one Warm
   * Autumn, a bright cool colour Cool Summer and a dark one Cool Winter, the
   * rest Neutral. The brightness cut-offs 140 and 130 are the channel-sum
   * cut-offs 420 and 390, so no rounding is involved.
   */
  function SeasonOf(u: string, r: int, g: int, b: int): (season: string)
    ensures season in SeasonKeys()
    ensures season == "Warm Spring" <==> u == "Warm" && r + g + b > 420
    ensures season == "Warm Autumn" <==> u == "Warm" && r + g + b <= 420
    ensures season == "Cool Summer" <==> u == "Cool" && r + g + b > 390
    ensures season == "Cool Winter" <==> u == "Cool" && r + g + b <= 390
    ensures season == "Neutral" <==> u != "Warm" && u != "Cool"
  {
    var brightness := Brightness(r, g, b);
    if u == "Warm" && brightness > 140.0 then "Warm Spring"
    else if u == "Warm" then "Warm Autumn"
    else if u == "Cool" && brightness > 130.0 then "Cool Summer"
    else if u == "Cool" then "Cool Winter"
    else "Neutral"
  }

  /** The season of any average colour is a key of all four tables, so no lookup falls back. */
  lemma SeasonIsTableKey(r: int, g: int, b: int)
    ensures var season := SeasonOf(UndertoneOf(r, g, b), r, g, b);
      season in ColorPalettes && season in AvoidPalettes && season in ClothingShapeAdvice && season in HairColorAdvice
  {
    TablesShareKeys();
  }

  /** A colour whose channels are all equal is Neutral, whatever its brightness. */
  lemma GreyIsNeutral(v: Byte)
    ensures UndertoneOf(v, v, v) == "Neutral" && SeasonOf("Neutral", v, v, v) == "Neutral"
    ensures PaletteFor("Neutral") == ColorPalettes["Neutral"] && AvoidFor("Neutral") == []
  {
  }

  // ---------------------------------------------------------------------------
  // The page
  // ---------------------------------------------------------------------------

  datatype ScanResults = ScanResults(r: Byte, g: Byte, b: Byte, brightness: real, season: string)

  const NoPhotoTitle: string := "Upload a selfie or wrist photo first"

  /** The colour-analysis page: its photo and the state it shows after an analysis. */
  class ColorAnalysisPage {
    var photo: Option<string>
    var undertone: Option<string>
    var palette: seq<string>
    var avoidPalette: seq<string>
    var scanResults: Option<ScanResults>

    /**
     * What the page's handlers keep: a shown result comes with the undertone
     * of its colour, its season, its brightness and that season's palettes.
     */
    predicate Valid()
      reads this
    {
      match scanResults
      case None => true
      case Some(res) =>
        undertone == Some(UndertoneOf(res.r, res.g, res.b))
        && res.season == SeasonOf(undertone.value, res.r, res.g, res.b)
        && res.brightness == Brightness(res.r, res.g, res.b)
        && palette == PaletteFor(res.season)
        && avoidPalette == AvoidFor(res.season)
    }

    /** A fresh page: no photo and nothing analysed. */
    constructor ()
      ensures Valid()
      ensures photo == None && undertone == None && palette == [] && avoidPalette == [] && scanResults == None
    {
      photo := None;
      undertone := None;
      palette := [];
      avoidPalette := [];
      scanResults := None;
    }

    /** The page has nothing to analyse: no photo, or an empty data URL. */
    predicate NoPhoto()
      reads this
    {
      photo.None? || photo.value == ""
    }

    /**
     * The file input changed: with no file chosen nothing happens; otherwise
     * the file's data URL becomes the photo and the last analysis stays on
     * screen.
     */
    method OnImage(dataUrl: Option<string>)
      modifies this
      requires Valid()
      ensures Valid()
      ensures photo == (if dataUrl.Some? then dataUrl else old(photo))
      ensures undertone == old(undertone) && palette == old(palette) && avoidPalette == old(avoidPalette)
      ensures scanResults == old(scanResults)
    {
      if dataUrl.None? {
        return;
      }
      photo := dataUrl;
    }

    /**
     * Analyze Color. Without a photo the page shows a destructive toast and
     * changes nothing. Otherwise `data` is what the canvas returns for the
     * sample rectangle of a `width` by `height` drawing of the photo; the page
     * averages it, classifies the average and shows the season's tables.
     */
    method AnalyzeColorFromPhoto(width: nat, height: nat, data: seq<Byte>) returns (toast: Option<string>)
      modifies this
      requires Valid()
      requires !NoPhoto() ==> IsRectData(data, SampleRect(width, height))
      ensures Valid()
      ensures photo == old(photo)
      ensures old(NoPhoto()) ==> (
        toast == Some(NoPhotoTitle)
        && undertone == old(undertone) && palette == old(palette)
        && avoidPalette == old(avoidPalette) && scanResults == old(scanResults))
      ensures !old(NoPhoto()) ==> (
        toast == None
        && |data| % 4 == 0 && |data| > 0
        && var r, g, b := ChannelMean(data, 0), ChannelMean(data, 1), ChannelMean(data, 2);
           var season := SeasonOf(UndertoneOf(r, g, b), r, g, b);
           undertone == Some(UndertoneOf(r, g, b))
           && palette == PaletteFor(season) && avoidPalette == AvoidFor(season)
           && scanResults == Some(ScanResults(r, g, b, Brightness(r, g, b), season)))
    {
      if NoPhoto() {
        return Some(NoPhotoTitle);
      }
      RectDataShape(data, SampleRect(width, height));
      var r, g, b := AverageRect(data);
      var u := if IsWarm(r, g, b) then "Warm" else if IsCool(r, g, b) then "Cool" else "Neutral";
      var brightness := Brightness(r, g, b);
      var season := "Neutral";
      if u == "Warm" && brightness > 140.0 { season := "Warm Spring"; }
      if u == "Warm" && brightness <= 140.0 { season := "Warm Autumn"; }
      if u == "Cool" && brightness > 130.0 { season := "Cool Summer"; }
      if u == "Cool" && brightness <= 130.0 { season := "Cool Winter"; }
      assert season == SeasonOf(u, r, g, b);
      undertone := Some(u);
      palette := PaletteFor(season);
      avoidPalette := AvoidFor(season);
      scanResults := Some(ScanResults(r, g, b, brightness, season));
      return None;
    }

    /** Reset: the photo and every analysis result are cleared. */
    method Reset()
      modifies this
      ensures Valid()
      ensures photo == None && undertone == None && palette == [] && avoidPalette == [] && scanResults == None
    {
      photo := None;
      scanResults := None;
      undertone := None;
      palette := [];
      avoidPalette := [];
    }

    /** The neckline advice shown under a result: always present once a result is shown. */
    function ShapeAdviceShown(): (a: Option<ShapeAdvice>)
      reads this
      ensures scanResults.None? ==> a.None?
      ensures Valid() && scanResults.Some? ==> a == Some(ClothingShapeAdvice[scanResults.value.season])
    {
      match scanResults
      case None => None
      case Some(res) =>
        if res.season in ClothingShapeAdvice then Some(ClothingShapeAdvice[res.season]) else None
    }

    /** The hair-colour advice shown under a result: always present once a result is shown. */
    function HairAdviceShown(): (a: Option<HairAdvice>)
      reads this
      ensures scanResults.None? ==> a.None?
      ensures Valid() && scanResults.Some? ==> a == Some(HairColorAdvice[scanResults.value.season])
    {
      match scanResults
      case None => None
      case Some(res) =>
        if res.season in HairColorAdvice then Some(HairColorAdvice[res.season]) else None
    }
  }
}
