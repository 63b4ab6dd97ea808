/**
 * The centre-sample skin-tone classifier of the colour-analysis library:
 * sample a square window around the image centre, keep the pixels that pass
 * a fixed skin test, average them with round-half-up, classify the average
 * into one of nine "depth warmth" tones and look the tone up in a constant
 * recommendation table.
 *
 * Decoding the image is outside the model: an image is a grid of RGB bytes.
 * The hue angle is computed in floating point by the original (atan2 and a
 * square root), so it enters the model as a parameter `hue` from an average
 * colour to a real number of degrees.
 */
module ColorAnalysis {
  import opened Numbers

  datatype Rgb = Rgb(r: Byte, g: Byte, b: Byte)

  datatype ColorInfo = ColorInfo(name: string, hex: string)

  datatype MakeupRecommendations = MakeupRecommendations(lipstick: seq<ColorInfo>, blush: seq<ColorInfo>)

  datatype Recommendations = Recommendations(fashion: seq<ColorInfo>, makeup: MakeupRecommendations, avoid: seq<ColorInfo>)

  datatype AnalysisResult = AnalysisResult(skinTone: string, dominantColor: string, rgb: Rgb, recommendations: Recommendations)

  /** The one error of the analysis: no pixel of the window looked like skin. */
  datatype AnalysisError = NoSkinDetected {
    function Message(): string {
      "Could not detect skin tone in the center of the image. Please try a clearer, centered photo."
    }
  }

  // ---------------------------------------------------------------------------
  // rgbToHex
  // ---------------------------------------------------------------------------

  /** The integer `(1 << 24) + (r << 16) + (g << 8) + b` whose hex digits are printed. */
  function PackedRgb(c: Rgb): nat {
    0x100_0000 + c.r * 0x1_0000 + c.g * 0x100 + c.b
  }

  /** Appending three bytes to q appends their six digits to q's toString(16). */
  lemma ToHexStringThreeBytes(q: nat, r: Byte, g: Byte, b: Byte)
    requires q >= 1
    ensures ToHexString(256 * (256 * (256 * q + r) + g) + b) == ToHexString(q) + HexByte(r) + HexByte(g) + HexByte(b)
  {
    ToHexStringByte(q, r);
    ToHexStringByte(256 * q + r, g);
    ToHexStringByte(256 * (256 * q + r) + g, b);
  }

  /** toString(16) of the packed integer is a leading 1 followed by two digits per channel. */
  lemma PackedRgbDigits(c: Rgb)
    ensures ToHexString(PackedRgb(c)) == "1" + HexByte(c.r) + HexByte(c.g) + HexByte(c.b)
  {
    ToHexStringThreeBytes(1, c.r, c.g, c.b);
    assert 256 * (256 * (256 * 1 + c.r) + c.g) + c.b == PackedRgb(c);
    assert ToHexString(1) == "1";
  }

  /**
   * rgbToHex: `#` followed by exactly six lower-case hexadecimal digits, two
   * per channel, in red, green, blue order.
   */
  function RgbToHex(c: Rgb): (hex: string)
    ensures |hex| == 7 && hex[0] == '#'
    ensures forall i :: 1 <= i < 7 ==> IsLowerHexDigit(hex[i])
    ensures hex[1..3] == HexByte(c.r) && hex[3..5] == HexByte(c.g) && hex[5..7] == HexByte(c.b)
  {
    PackedRgbDigits(c);
    var hex := "#" + ToHexString(PackedRgb(c))[1..];
    assert hex == "#" + HexByte(c.r) + HexByte(c.g) + HexByte(c.b);
    hex
  }

  // ---------------------------------------------------------------------------
  // mapRgbToSkinTone
  // ---------------------------------------------------------------------------

  datatype Depth = Fair | Medium | Deep {
    function Name(): string {
      match this
      case Fair => "fair"
      case Medium => "medium"
      case Deep => "deep"
    }
  }

  datatype Warmth = Warm | Neutral | Cool {
    function Name(): string {
      match this
      case Warm => "warm"
      case Neutral => "neutral"
      case Cool => "cool"
    }
  }

  /** BT.709 relative luminance 0.2126 r + 0.7152 g + 0.0722 b, scaled by 10000 to stay integral. */
  function Luminance(c: Rgb): int {
    2126 * c.r + 7152 * c.g + 722 * c.b
  }

  /**
   * The byte colours whose luminance is exactly 85 but whose sum
   * `0.2126 * r + 0.7152 * g + 0.0722 * b`, evaluated left to right in IEEE
   * double precision, rounds to 84.99999999999999, so that `lum < 85` holds
   * for them. No byte colour has its double sum land on the other side of 200.
   */
  const RoundedBelowEightyFive: set<Rgb> :=
    {Rgb(3, 112, 59), Rgb(20, 102, 108), Rgb(54, 82, 206), Rgb(68, 95, 36), Rgb(133, 78, 13), Rgb(150, 68, 62)}

  /**
   * The depth word: fair above luminance 200, deep below 85, medium otherwise
   * (both ends strict), with the six colours of luminance exactly 85 whose
   * double sum rounds below 85 counted as deep.
   */
  function DepthOf(c: Rgb): (d: Depth)
    ensures d == Fair <==> Luminance(c) > 2_000_000
    ensures d == Deep <==> Luminance(c) < 850_000 || c in RoundedBelowEightyFive
    ensures d == Medium <==> 850_000 <= Luminance(c) <= 2_000_000 && c !in RoundedBelowEightyFive
  {
    if Luminance(c) > 2_000_000 then Fair
    else if Luminance(c) < 850_000 || c in RoundedBelowEightyFive then Deep
    else Medium
  }

  /** Every exception sits exactly at luminance 85, so the rounding moves only that boundary. */
  lemma RoundedBelowEightyFiveAtBoundary(c: Rgb)
    requires c in RoundedBelowEightyFive
    ensures Luminance(c) == 850_000 && DepthOf(c) == Deep
  {
  }

  /** The warmth word for a hue in degrees; the three cases partition the reals. */
  function WarmthOf(hue: real): (w: Warmth)
    ensures w == Warm <==> -30.0 < hue < 60.0
    ensures w == Cool <==> hue <= -30.0 || hue >= 170.0
    ensures w == Neutral <==> 60.0 <= hue < 170.0
  {
    if -30.0 < hue && hue < 60.0 then Warm
    else if hue <= -30.0 || hue >= 170.0 then Cool
    else Neutral
  }

  /** The "<depth> <warmth>" key of a tone category. */
  function ToneKey(d: Depth, w: Warmth): string {
    d.Name() + " " + w.Name()
  }

  /** The nine keys of the recommendation table. */
  function ToneKeys(): set<string> {
    {"fair warm", "fair neutral", "fair cool",
     "medium warm", "medium neutral", "medium cool",
     "deep warm", "deep neutral", "deep cool"}
  }

  lemma ToneKeyIsKey(d: Depth, w: Warmth)
    ensures ToneKey(d, w) in ToneKeys()
  {
    match d {
      case Fair =>
        match w {
          case Warm => assert ToneKey(d, w) == "fair warm";
          case Neutral => assert ToneKey(d, w) == "fair neutral";
          case Cool => assert ToneKey(d, w) == "fair cool";
        }
      case Medium =>
        match w {
          case Warm => assert ToneKey(d, w) == "medium warm";
          case Neutral => assert ToneKey(d, w) == "medium neutral";
          case Cool => assert ToneKey(d, w) == "medium cool";
        }
      case Deep =>
        match w {
          case Warm => assert ToneKey(d, w) == "deep warm";
          case Neutral => assert ToneKey(d, w) == "deep neutral";
          case Cool => assert ToneKey(d, w) == "deep cool";
        }
    }
  }

  /** Distinct (depth, warmth) pairs give distinct keys: the key names the category. */
  lemma ToneKeyInjective(d1: Depth, w1: Warmth, d2: Depth, w2: Warmth)
    requires ToneKey(d1, w1) == ToneKey(d2, w2)
    ensures d1 == d2 && w1 == w2
  {
    var k := ToneKey(d1, w1);
    // the depth word is read off the first letter, the warmth word off the last
    assert k[0] == d1.Name()[0] == d2.Name()[0];
    assert k[|k| - 1] == w1.Name()[|w1.Name()| - 1] == w2.Name()[|w2.Name()| - 1];
    assert k[|k| - 2] == w1.Name()[|w1.Name()| - 2] == w2.Name()[|w2.Name()| - 2];
  }

  /**
   * mapRgbToSkinTone: the depth word, a space and the warmth word. The
   * trailing trim() of the original has nothing to remove.
   */
  function MapRgbToSkinTone(c: Rgb, hue: real): (tone: string)
    ensures tone in ToneKeys()
  {
    var depth := DepthOf(c);
    var warmth := WarmthOf(hue);
    ToneKeyIsKey(depth, warmth);
    ToneKey(depth, warmth)
  }

  // ---------------------------------------------------------------------------
  // colorRecommendationsForTone
  // ---------------------------------------------------------------------------

  /** The constant nine-entry recommendation table. */
  const ToneTable: map<string, Recommendations> := map[
    "fair warm" := Recommendations(
      [ColorInfo("Peach", "#FFDAB9"), ColorInfo("Coral", "#FF7F50"), ColorInfo("Warm Beige", "#F5F5DC"), ColorInfo("Camel", "#C19A6B"), ColorInfo("Olive Green", "#808000")],
      MakeupRecommendations(
        [ColorInfo("Coral", "#FF7F50"), ColorInfo("Peachy Nude", "#E8A798")],
        [ColorInfo("Warm Peach", "#FFCBA4"), ColorInfo("Light Coral", "#F08080")]),
      [ColorInfo("Icy Blue", "#ADD8E6"), ColorInfo("Black", "#000000"), ColorInfo("Magenta", "#FF00FF")]),
    "fair neutral" := Recommendations(
      [ColorInfo("Soft Rose", "#E0BBE4"), ColorInfo("Dusty Blue", "#6699CC"), ColorInfo("Sage Green", "#B2AC88"), ColorInfo("Ivory", "#FFFFF0"), ColorInfo("Light Gray", "#D3D3D3")],
      MakeupRecommendations(
        [ColorInfo("Rose", "#FF007F"), ColorInfo("Dusty Pink", "#D4A6B1")],
        [ColorInfo("Soft Pink", "#F9CCCA"), ColorInfo("Neutral Rose", "#C48189")]),
      [ColorInfo("Bright Yellow", "#FFFF00"), ColorInfo("Neons", "#39FF14"), ColorInfo("Dark Brown", "#654321")]),
    "fair cool" := Recommendations(
      [ColorInfo("Icy Blue", "#ADD8E6"), ColorInfo("Lavender", "#E6E6FA"), ColorInfo("Charcoal", "#36454F"), ColorInfo("Soft Gray", "#D3D3D3"), ColorInfo("Mint Green", "#98FF98")],
      MakeupRecommendations(
        [ColorInfo("Plum", "#8E4585"), ColorInfo("Cool Pink", "#E5B9B5")],
        [ColorInfo("Baby Pink", "#F4C2C2"), ColorInfo("Light Mauve", "#D4B3C6")]),
      [ColorInfo("Orange", "#FFA500"), ColorInfo("Gold", "#FFD700"), ColorInfo("Tomato Red", "#FF6347")]),
    "medium warm" := Recommendations(
      [ColorInfo("Terracotta", "#E2725B"), ColorInfo("Mustard", "#FFDB58"), ColorInfo("Warm Olive", "#556B2F"), ColorInfo("Cream", "#FFFDD0"), ColorInfo("Burnt Orange", "#CC5500")],
      MakeupRecommendations(
        [ColorInfo("Brick Red", "#B22222"), ColorInfo("Terracotta", "#E2725B")],
        [ColorInfo("Bronze", "#CD7F32"), ColorInfo("Spiced Peach", "#E49B61")]),
      [ColorInfo("Pastel Pink", "#FFD1DC"), ColorInfo("Baby Blue", "#89CFF0"), ColorInfo("Ash Gray", "#B2BEB5")]),
    "medium neutral" := Recommendations(
      [ColorInfo("Teal", "#008080"), ColorInfo("Wine", "#722F37"), ColorInfo("Beige", "#F5F5DC"), ColorInfo("Denim Blue", "#1560BD"), ColorInfo("Mauve", "#E0B0FF")],
      MakeupRecommendations(
        [ColorInfo("Mauve", "#E0B0FF"), ColorInfo("Berry", "#8A2A54")],
        [ColorInfo("Neutral Rose", "#D29A8D"), ColorInfo("Deeper Pink", "#DE6FA1")]),
      [ColorInfo("Neon Green", "#39FF14"), ColorInfo("Electric Orange", "#FF4F00"), ColorInfo("Stark White", "#FFFFFF")]),
    "medium cool" := Recommendations(
      [ColorInfo("Plum", "#8E4585"), ColorInfo("Steel Blue", "#4682B4"), ColorInfo("Forest Green", "#228B22"), ColorInfo("Burgundy", "#800020"), ColorInfo("Navy", "#000080")],
      MakeupRecommendations(
        [ColorInfo("Berry", "#8A2A54"), ColorInfo("Deep Rose", "#8B0000")],
        [ColorInfo("Cool Mauve", "#C6A9B4"), ColorInfo("Cool Plum", "#8B668B")]),
      [ColorInfo("Golden Yellow", "#FFC000"), ColorInfo("Warm Brown", "#964B00"), ColorInfo("Cream", "#FFFDD0")]),
    "deep warm" := Recommendations(
      [ColorInfo("Rich Gold", "#DAA520"), ColorInfo("Burnt Orange", "#CC5500"), ColorInfo("Olive Green", "#808000"), ColorInfo("Chocolate Brown", "#D2691E"), ColorInfo("Rust", "#B7410E")],
      MakeupRecommendations(
        [ColorInfo("Brick", "#B22222"), ColorInfo("Deep Terracotta", "#C8644A")],
        [ColorInfo("Warm Terracotta", "#E2725B"), ColorInfo("Rich Bronze", "#8C4312")]),
      [ColorInfo("Pale Lavender", "#D8BFD8"), ColorInfo("Light Pink", "#FFB6C1"), ColorInfo("Light Gray", "#D3D3D3")]),
    "deep neutral" := Recommendations(
      [ColorInfo("Eggplant", "#614051"), ColorInfo("Cobalt Blue", "#0047AB"), ColorInfo("Camel", "#C19A6B"), ColorInfo("Deep Teal", "#003J3C"), ColorInfo("Maroon", "#800000")],
      MakeupRecommendations(
        [ColorInfo("Deep Rose", "#8B0000"), ColorInfo("Chocolate", "#7B3F00")],
        [ColorInfo("Neutral Plum", "#7D4F50"), ColorInfo("Deep Berry", "#580F2A")]),
      [ColorInfo("Baby Pink", "#F4C2C2"), ColorInfo("Pastel Yellow", "#FDFFB6"), ColorInfo("White", "#FFFFFF")]),
    "deep cool" := Recommendations(
      [ColorInfo("Black", "#000000"), ColorInfo("Royal Blue", "#4169E1"), ColorInfo("Emerald Green", "#50C878"), ColorInfo("Deep Fuchsia", "#C154C1"), ColorInfo("True Red", "#FF0000")],
      MakeupRecommendations(
        [ColorInfo("Deep Berry", "#3A1226"), ColorInfo("Rich Burgundy", "#6D071A")],
        [ColorInfo("Plum", "#8E4585"), ColorInfo("Cool Berry", "#993366")]),
      [ColorInfo("Beige", "#F5F5DC"), ColorInfo("Light Orange", "#FED8B1"), ColorInfo("Warm Gold", "#FFB347")])
  ]

  /** The bundle returned for a key the table does not hold. */
  const DefaultRecommendations: Recommendations := Recommendations(
    [ColorInfo("Beige", "#F5F5DC"), ColorInfo("Navy", "#000080"), ColorInfo("Olive", "#808000")],
    MakeupRecommendations([ColorInfo("Nude Rose", "#C48189")], [ColorInfo("Neutral Pink", "#D29A8D")]),
    [ColorInfo("Neon Green", "#39FF14"), ColorInfo("Stark White", "#FFFFFF")])

  /** Every table entry has five fashion colours, two lipsticks, two blushes and three colours to avoid. */
  predicate IsTableBundle(rec: Recommendations) {
    |rec.fashion| == 5 && |rec.makeup.lipstick| == 2 && |rec.makeup.blush| == 2 && |rec.avoid| == 3
  }

  /**
   * colorRecommendationsForTone: the table entry for each of the nine keys,
   * the default bundle (three fashion colours, one lipstick, one blush, two
   * colours to avoid) for every other string.
   */
  function ColorRecommendationsForTone(tone: string): (rec: Recommendations)
    ensures tone in ToneKeys() ==> tone in ToneTable && rec == ToneTable[tone] && IsTableBundle(rec)
    ensures tone !in ToneKeys() ==>
      rec == DefaultRecommendations
      && |rec.fashion| == 3 && |rec.makeup.lipstick| == 1 && |rec.makeup.blush| == 1 && |rec.avoid| == 2
  {
    if tone in ToneTable then ToneTable[tone] else DefaultRecommendations
  }

  /** The classifier never produces a key that falls through to the default bundle. */
  lemma SkinToneNeverDefault(c: Rgb, hue: real)
    ensures MapRgbToSkinTone(c, hue) in ToneTable
    ensures ColorRecommendationsForTone(MapRgbToSkinTone(c, hue)) != DefaultRecommendations
    ensures IsTableBundle(ColorRecommendationsForTone(MapRgbToSkinTone(c, hue)))
  {
  }

  // ---------------------------------------------------------------------------
  // The skin test and the sample window of performAnalysis
  // ---------------------------------------------------------------------------

  /**
   * The fixed skin test of the sampler. Red must exceed green by more than
   * 15, so the spread test (largest minus smallest channel above 15) never
   * rejects a pixel the other tests accept.
   */
  predicate IsSkinLike(p: Rgb)
    ensures IsSkinLike(p) <==> p.r > 95 && p.g > 40 && p.b > 20 && p.r > p.b && p.r - p.g > 15
  {
    && p.r > 95 && p.g > 40 && p.b > 20
    && Max(p.r, Max(p.g, p.b)) - Min(p.r, Min(p.g, p.b)) > 15
    && Abs(p.r - p.g) > 15 && p.r > p.g && p.r > p.b
  }

  /** A decoded image: `height` rows of `width` pixels each, at least one pixel. */
  datatype Image = Image(width: nat, height: nat, rows: seq<seq<Rgb>>) {
    predicate Valid() {
      && width >= 1 && height >= 1 && |rows| == height
      && forall y :: 0 <= y < |rows| ==> |rows[y]| == width
    }
  }

  /** `min(hi, max(0, v))`: the coordinate clamped into [0, hi]. */
  function Clamp(v: int, hi: nat): (c: nat)
    ensures c <= hi
    ensures 0 <= v <= hi ==> c == v
    ensures v < 0 ==> c == 0
    ensures v > hi ==> c == hi
  {
    Min(hi, Max(0, v))
  }

  /** Half the side of the window: 5% of the smaller dimension, at least 1. */
  function SampleSize(img: Image): (s: nat)
    ensures s >= 1
  {
    Max(1, Min(img.width, img.height) / 20)
  }

  /** The pixel examined at offset (dx, dy) from the centre, coordinates clamped into the image. */
  function SampleAt(img: Image, dx: int, dy: int): Rgb
    requires img.Valid()
  {
    var x := Clamp(img.width / 2 + dx, img.width - 1);
    var y := Clamp(img.height / 2 + dy, img.height - 1);
    img.rows[y][x]
  }

  /**
   * An offset that stays inside the image samples the pixel at the centre
   * plus the offset; one beyond the top-left corner in both directions
   * samples the corner pixel, and likewise for the bottom-right corner.
   */
  lemma SampleAtPosition(img: Image, dx: int, dy: int)
    requires img.Valid()
    ensures var x, y := img.width / 2 + dx, img.height / 2 + dy;
      0 <= x < img.width && 0 <= y < img.height ==> SampleAt(img, dx, dy) == img.rows[y][x]
    ensures dx <= -(img.width / 2) && dy <= -(img.height / 2) ==> SampleAt(img, dx, dy) == img.rows[0][0]
    ensures dx >= img.width && dy >= img.height ==> SampleAt(img, dx, dy) == img.rows[img.height - 1][img.width - 1]
  {
  }

  /** The first n samples of column dx: offsets dy = -s, ..., -s + n - 1. */
  function ColumnPrefix(img: Image, s: nat, dx: int, n: nat): (ps: seq<Rgb>)
    requires img.Valid()
    ensures |ps| == n
  {
    if n == 0 then [] else ColumnPrefix(img, s, dx, n - 1) + [SampleAt(img, dx, n - 1 - s)]
  }

  /** Sample j of a column is the pixel at row offset j - s. */
  lemma {:induction false} ColumnPrefixAt(img: Image, s: nat, dx: int, n: nat, j: nat)
    requires img.Valid() && j < n
    ensures ColumnPrefix(img, s, dx, n)[j] == SampleAt(img, dx, j - s)
  {
    if j < n - 1 {
      ColumnPrefixAt(img, s, dx, n - 1, j);
    }
  }

  /** The samples of the first m columns dx = -s, ..., -s + m - 1, column by column. */
  function WindowPrefix(img: Image, s: nat, m: nat): seq<Rgb>
    requires img.Valid()
  {
    if m == 0 then [] else WindowPrefix(img, s, m - 1) + ColumnPrefix(img, s, m - 1 - s, 2 * s + 1)
  }

  /**
   * Where column i starts in a window of side k, in loop order: i k, written
   * as repeated addition so that the index proofs below stay linear.
   */
  function ColumnStart(k: nat, i: nat): nat {
    if i == 0 then 0 else ColumnStart(k, i - 1) + k
  }

  lemma {:induction false} ColumnStartIsProduct(k: nat, i: nat)
    ensures ColumnStart(k, i) == i * k
  {
    if i > 0 {
      ColumnStartIsProduct(k, i - 1);
      assert (i - 1) * k + k == i * k;
    }
  }

  /** Position of the sample at column i, row j of a window of side k, in loop order. */
  function LoopIndex(k: nat, i: nat, j: nat): nat {
    ColumnStart(k, i) + j
  }

  /** m full columns hold m (2s+1) samples. */
  lemma {:induction false} WindowPrefixLength(img: Image, s: nat, m: nat)
    requires img.Valid()
    ensures |WindowPrefix(img, s, m)| == ColumnStart(2 * s + 1, m)
  {
    if m > 0 {
      WindowPrefixLength(img, s, m - 1);
    }
  }

  /** Every pixel the nested dx/dy loops examine, in loop order. */
  function Window(img: Image): seq<Rgb>
    requires img.Valid()
  {
    var s := SampleSize(img);
    WindowPrefix(img, s, 2 * s + 1)
  }

  /** Sample j of column i sits at LoopIndex(2s+1, i, j) and is the clamped pixel at offset (i - s, j - s). */
  lemma {:induction false} WindowPrefixAt(img: Image, s: nat, m: nat, i: nat, j: nat)
    requires img.Valid() && i < m && j < 2 * s + 1
    ensures LoopIndex(2 * s + 1, i, j) < |WindowPrefix(img, s, m)|
    ensures WindowPrefix(img, s, m)[LoopIndex(2 * s + 1, i, j)] == SampleAt(img, i - s, j - s)
  {
    var k := 2 * s + 1;
    var n := LoopIndex(k, i, j);
    var all, prev := WindowPrefix(img, s, m), WindowPrefix(img, s, m - 1);
    var column := ColumnPrefix(img, s, m - 1 - s, k);
    assert all == prev + column;
    WindowPrefixLength(img, s, m - 1);
    if i < m - 1 {
      WindowPrefixAt(img, s, m - 1, i, j);
      assert n < |prev| && all[n] == prev[n];
    } else {
      ColumnPrefixAt(img, s, m - 1 - s, k, j);
      assert n == |prev| + j && all[n] == column[j];
    }
  }

  /** The side of the square window: 2 SampleSize + 1 pixels. */
  function Side(img: Image): nat {
    2 * SampleSize(img) + 1
  }

  /** LoopIndex is the row-major position i k + j. */
  lemma LoopIndexIsProduct(k: nat, i: nat, j: nat)
    ensures LoopIndex(k, i, j) == i * k + j
  {
    ColumnStartIsProduct(k, i);
  }

  /**
   * The window is the full square around the centre: exactly Side^2
   * samples, and sample number LoopIndex(Side, i, j) is the clamped pixel at
   * offset (i - s, j - s) from the centre.
   */
  lemma WindowLength(img: Image)
    requires img.Valid()
    ensures |Window(img)| == Side(img) * Side(img)
  {
    var s := SampleSize(img);
    var k := 2 * s + 1;
    assert Window(img) == WindowPrefix(img, s, k);
    WindowPrefixLength(img, s, k);
    ColumnStartIsProduct(k, k);
  }

  lemma WindowShape(img: Image)
    requires img.Valid()
    ensures |Window(img)| == Side(img) * Side(img)
    ensures forall i: nat, j: nat {:trigger LoopIndex(Side(img), i, j)} :: i < Side(img) && j < Side(img) ==>
      && LoopIndex(Side(img), i, j) < |Window(img)|
      && Window(img)[LoopIndex(Side(img), i, j)] == SampleAt(img, i - SampleSize(img), j - SampleSize(img))
  {
    var s, k := SampleSize(img), Side(img);
    var ps := Window(img);
    assert ps == WindowPrefix(img, s, k);
    WindowLength(img);
    forall i: nat, j: nat {:trigger LoopIndex(k, i, j)} | i < k && j < k
      ensures LoopIndex(k, i, j) < |ps| && ps[LoopIndex(k, i, j)] == SampleAt(img, i - s, j - s)
    {
      WindowPrefixAt(img, s, k, i, j);
    }
  }

  // ---------------------------------------------------------------------------
  // The accumulator
  // ---------------------------------------------------------------------------

  /** The running channel sums and the number of accepted pixels. */
  datatype Sums = Sums(r: nat, g: nat, b: nat, count: nat)

  /**
   * The accumulator after one more pixel: a rejected pixel changes nothing,
   * an accepted one adds one to the count, and no channel sum ever exceeds
   * 255 times the count.
   */
  function Step(t: Sums, p: Rgb): (next: Sums)
    ensures !IsSkinLike(p) ==> next == t
    ensures IsSkinLike(p) ==> next.count == t.count + 1
  {
    if IsSkinLike(p) then Sums(t.r + p.r, t.g + p.g, t.b + p.b, t.count + 1) else t
  }

  /** The channel of a pixel and the matching sum: 0 red, 1 green, 2 blue. */
  function Channel(p: Rgb, k: nat): Byte
    requires k < 3
  {
    if k == 0 then p.r else if k == 1 then p.g else p.b
  }

  function SumOf(t: Sums, k: nat): nat
    requires k < 3
  {
    if k == 0 then t.r else if k == 1 then t.g else t.b
  }

  /**
   * The accumulator after the pixels ps, in order: the number of pixels that
   * pass the skin test and the sums of their channels. Channels are bytes, so
   * each sum is at most 255 times the count.
   */
  function Tally(ps: seq<Rgb>): (t: Sums)
    ensures t.count <= |ps|
    ensures t.r <= 255 * t.count && t.g <= 255 * t.count && t.b <= 255 * t.count
    decreases |ps|
  {
    if ps == [] then Sums(0, 0, 0, 0) else Step(Tally(ps[..|ps| - 1]), ps[|ps| - 1])
  }

  /** The accumulator t after the further pixels ps, in order. */
  function Fold(t: Sums, ps: seq<Rgb>): Sums
    decreases |ps|
  {
    if ps == [] then t else Step(Fold(t, ps[..|ps| - 1]), ps[|ps| - 1])
  }

  lemma FoldAppend(t: Sums, ps: seq<Rgb>, p: Rgb)
    ensures Fold(t, ps + [p]) == Step(Fold(t, ps), p)
  {
    assert (ps + [p])[..|ps|] == ps;
  }

  /** Tallying a sequence in two parts: the second part is folded onto the tally of the first. */
  lemma {:induction false} TallyConcat(ps: seq<Rgb>, qs: seq<Rgb>)
    ensures Tally(ps + qs) == Fold(Tally(ps), qs)
    decreases |qs|
  {
    if qs == [] {
      assert ps + qs == ps;
    } else {
      var init, q := qs[..|qs| - 1], qs[|qs| - 1];
      TallyConcat(ps, init);
      assert ps + qs == (ps + init) + [q];
      TallyAppend(ps + init, q);
    }
  }

  /**
   * The accumulator t after the first n samples of column dx, in the order
   * of the inner loop, computed sample by sample without building a sequence.
   */
  function ColumnTally(img: Image, s: nat, dx: int, t: Sums, n: nat): Sums
    requires img.Valid()
  {
    if n == 0 then t else Step(ColumnTally(img, s, dx, t, n - 1), SampleAt(img, dx, n - 1 - s))
  }

  /** One iteration of the inner loop: after n = dy + s rows, the sample at (dx, dy) is folded in. */
  lemma ColumnTallyStep(img: Image, s: nat, dx: int, t: Sums, n: nat, dy: int)
    requires img.Valid() && n == dy + s
    ensures ColumnTally(img, s, dx, t, n + 1) == Step(ColumnTally(img, s, dx, t, n), SampleAt(img, dx, dy))
  {
  }

  lemma {:induction false} ColumnTallyIsFold(img: Image, s: nat, dx: int, t: Sums, n: nat)
    requires img.Valid()
    ensures ColumnTally(img, s, dx, t, n) == Fold(t, ColumnPrefix(img, s, dx, n))
  {
    if n > 0 {
      ColumnTallyIsFold(img, s, dx, t, n - 1);
      FoldAppend(t, ColumnPrefix(img, s, dx, n - 1), SampleAt(img, dx, n - 1 - s));
    }
  }

  /** The accumulator after the first m full columns of the window, column by column. */
  function WindowTally(img: Image, s: nat, m: nat): Sums
    requires img.Valid()
  {
    if m == 0 then Sums(0, 0, 0, 0) else ColumnTally(img, s, m - 1 - s, WindowTally(img, s, m - 1), 2 * s + 1)
  }

  /** One iteration of the outer loop: after m = dx + s columns, column dx is folded in. */
  lemma WindowTallyStep(img: Image, s: nat, m: nat, dx: int)
    requires img.Valid() && m == dx + s
    ensures WindowTally(img, s, m + 1) == ColumnTally(img, s, dx, WindowTally(img, s, m), 2 * s + 1)
  {
  }

  /** Column by column, the loops compute exactly the tally of the window's samples. */
  lemma {:induction false} WindowTallyIsTally(img: Image, s: nat, m: nat)
    requires img.Valid()
    ensures WindowTally(img, s, m) == Tally(WindowPrefix(img, s, m))
  {
    if m > 0 {
      var prev, column := WindowPrefix(img, s, m - 1), ColumnPrefix(img, s, m - 1 - s, 2 * s + 1);
      WindowTallyIsTally(img, s, m - 1);
      ColumnTallyIsFold(img, s, m - 1 - s, WindowTally(img, s, m - 1), 2 * s + 1);
      TallyConcat(prev, column);
    }
  }

  lemma TallyAppend(ps: seq<Rgb>, p: Rgb)
    ensures Tally(ps + [p]) == Step(Tally(ps), p)
  {
    assert (ps + [p])[..|ps|] == ps;
  }

  /** No pixel is counted exactly when no pixel passes the skin test. */
  lemma {:induction false} TallyCountZero(ps: seq<Rgb>)
    ensures Tally(ps).count == 0 <==> forall i :: 0 <= i < |ps| ==> !IsSkinLike(ps[i])
    decreases |ps|
  {
    if ps != [] {
      var init := ps[..|ps| - 1];
      TallyCountZero(init);
      assert forall i :: 0 <= i < |init| ==> init[i] == ps[i];
    }
  }

  /** One step of the accumulator keeps channel sum k within [lo, hi] times the count. */
  lemma StepBetween(t: Sums, p: Rgb, k: nat, lo: int, hi: int)
    requires k < 3
    requires lo * t.count <= SumOf(t, k) <= hi * t.count
    requires IsSkinLike(p) ==> lo <= Channel(p, k) <= hi
    ensures lo * Step(t, p).count <= SumOf(Step(t, p), k) <= hi * Step(t, p).count
  {
    if IsSkinLike(p) {
      var n := t.count;
      assert lo * (n + 1) == lo * n + lo;
      assert hi * (n + 1) == hi * n + hi;
    }
  }

  /** If every accepted pixel has channel k in [lo, hi], the channel sum lies in [lo, hi] times the count. */
  lemma {:induction false} TallyBetween(ps: seq<Rgb>, k: nat, lo: int, hi: int)
    requires k < 3
    requires forall i :: 0 <= i < |ps| && IsSkinLike(ps[i]) ==> lo <= Channel(ps[i], k) <= hi
    ensures lo * Tally(ps).count <= SumOf(Tally(ps), k) <= hi * Tally(ps).count
    decreases |ps|
  {
    if ps != [] {
      var init, p := ps[..|ps| - 1], ps[|ps| - 1];
      assert forall i :: 0 <= i < |init| ==> init[i] == ps[i];
      TallyBetween(init, k, lo, hi);
      StepBetween(Tally(init), p, k, lo, hi);
    }
  }

  /** Accepted pixels have red above 95, green above 40 and blue above 20, so the sums do too. */
  lemma TallyFloor(ps: seq<Rgb>)
    ensures 96 * Tally(ps).count <= Tally(ps).r
    ensures 41 * Tally(ps).count <= Tally(ps).g
    ensures 21 * Tally(ps).count <= Tally(ps).b
  {
    TallyBetween(ps, 0, 96, 255);
    TallyBetween(ps, 1, 41, 255);
    TallyBetween(ps, 2, 21, 255);
  }

  /** n copies of c, plus one more accepted copy, make n + 1 copies. */
  lemma StepUniform(c: Rgb, n: nat)
    requires IsSkinLike(c)
    ensures Step(Sums(c.r * n, c.g * n, c.b * n, n), c) == Sums(c.r * (n + 1), c.g * (n + 1), c.b * (n + 1), n + 1)
  {
    assert c.r * (n + 1) == c.r * n + c.r;
    assert c.g * (n + 1) == c.g * n + c.g;
    assert c.b * (n + 1) == c.b * n + c.b;
  }

  /** A window made of one skin-like colour sums to count copies of it. */
  lemma {:induction false} TallyUniform(ps: seq<Rgb>, c: Rgb)
    requires IsSkinLike(c)
    requires forall i :: 0 <= i < |ps| ==> ps[i] == c
    ensures Tally(ps) == Sums(c.r * |ps|, c.g * |ps|, c.b * |ps|, |ps|)
    decreases |ps|
  {
    if ps != [] {
      var init := ps[..|ps| - 1];
      TallyUniform(init, c);
      StepUniform(c, |init|);
    }
  }

  // ---------------------------------------------------------------------------
  // performAnalysis
  // ---------------------------------------------------------------------------

  /** Each channel sum divided by the count with Math.round. */
  function Average(t: Sums): (c: Rgb)
    requires t.count > 0
    requires t.r <= 255 * t.count && t.g <= 255 * t.count && t.b <= 255 * t.count
    ensures t.count * (2 * c.r - 1) <= 2 * t.r < t.count * (2 * c.r + 1)
    ensures t.count * (2 * c.g - 1) <= 2 * t.g < t.count * (2 * c.g + 1)
    ensures t.count * (2 * c.b - 1) <= 2 * t.b < t.count * (2 * c.b + 1)
  {
    RoundDivBetween(t.r, t.count, 0, 255);
    RoundDivBetween(t.g, t.count, 0, 255);
    RoundDivBetween(t.b, t.count, 0, 255);
    Rgb(RoundDiv(t.r, t.count), RoundDiv(t.g, t.count), RoundDiv(t.b, t.count))
  }

  /** The result record built from an average colour. */
  function ResultFor(c: Rgb, hue: (int, int, int) -> real): AnalysisResult {
    var tone := MapRgbToSkinTone(c, hue(c.r, c.g, c.b));
    AnalysisResult(tone, RgbToHex(c), c, ColorRecommendationsForTone(tone))
  }

  /** What performAnalysis returns for a decoded image: the specification of the method below. */
  function AnalysisOf(img: Image, hue: (int, int, int) -> real): (res: Result<AnalysisResult, AnalysisError>)
    requires img.Valid()
    ensures res.Failure? ==> res.error == NoSkinDetected
    ensures res.Success? ==> res.value.skinTone in ToneKeys() && IsTableBundle(res.value.recommendations)
  {
    var t := Tally(Window(img));
    if t.count == 0 then Failure(NoSkinDetected) else Success(ResultFor(Average(t), hue))
  }

  /**
   * The inner dy loop of performAnalysis for one column dx: every row offset
   * from -s to s, each clamped pixel tested and, when skin-like, added to the
   * running sums.
   */
  method ScanColumn(img: Image, sampleSize: nat, dx: int, r0: nat, g0: nat, b0: nat, count0: nat)
    returns (rSum: nat, gSum: nat, bSum: nat, count: nat)
    requires img.Valid()
    ensures Sums(rSum, gSum, bSum, count) == ColumnTally(img, sampleSize, dx, Sums(r0, g0, b0, count0), 2 * sampleSize + 1)
  {
    rSum, gSum, bSum, count := r0, g0, b0, count0;
    var dy: int := -(sampleSize as int);
    ghost var n: nat := 0;
    while dy <= sampleSize
      invariant -(sampleSize as int) <= dy <= sampleSize + 1 && n == dy + sampleSize
      invariant Sums(rSum, gSum, bSum, count) == ColumnTally(img, sampleSize, dx, Sums(r0, g0, b0, count0), n)
    {
      var x := Clamp(img.width / 2 + dx, img.width - 1);
      var y := Clamp(img.height / 2 + dy, img.height - 1);
      var p := img.rows[y][x];
      assert p == SampleAt(img, dx, dy);
      ghost var before := Sums(rSum, gSum, bSum, count);
      ColumnTallyStep(img, sampleSize, dx, Sums(r0, g0, b0, count0), n, dy);

      var isSkinLike := IsSkinLike(p);
      if isSkinLike {
        rSum := rSum + p.r;
        gSum := gSum + p.g;
        bSum := bSum + p.b;
        count := count + 1;
      }
      assert Sums(rSum, gSum, bSum, count) == Step(before, p);
      dy, n := dy + 1, n + 1;
    }
  }

  /**
   * The outer dx loop of performAnalysis: every column offset from -s to s,
   * each scanned by the inner loop, so that the sums cover the whole window.
   */
  method ScanWindow(img: Image) returns (rSum: nat, gSum: nat, bSum: nat, count: nat)
    requires img.Valid()
    ensures Sums(rSum, gSum, bSum, count) == Tally(Window(img))
  {
    var sampleSize := SampleSize(img);
    rSum, gSum, bSum, count := 0, 0, 0, 0;
    var dx: int := -(sampleSize as int);
    ghost var m: nat := 0;
    while dx <= sampleSize
      invariant -(sampleSize as int) <= dx <= sampleSize + 1 && m == dx + sampleSize
      invariant Sums(rSum, gSum, bSum, count) == WindowTally(img, sampleSize, m)
    {
      WindowTallyStep(img, sampleSize, m, dx);
      rSum, gSum, bSum, count := ScanColumn(img, sampleSize, dx, rSum, gSum, bSum, count);
      dx, m := dx + 1, m + 1;
    }
    WindowTallyIsTally(img, sampleSize, m);
  }

  /**
   * performAnalysis after decoding: the window scanned and summed, the
   * NoSkinDetected failure when no sample passed the skin test, and otherwise
   * the rounded average classified, formatted and looked up.
   */
  method PerformAnalysis(img: Image, hue: (int, int, int) -> real) returns (res: Result<AnalysisResult, AnalysisError>)
    requires img.Valid()
    ensures res == AnalysisOf(img, hue)
  {
    var rSum, gSum, bSum, count := ScanWindow(img);
    if count == 0 {
      return Failure(NoSkinDetected);
    }
    var rgb := Average(Sums(rSum, gSum, bSum, count));
    var tone := MapRgbToSkinTone(rgb, hue(rgb.r, rgb.g, rgb.b));
    var recommendations := ColorRecommendationsForTone(tone);
    return Success(AnalysisResult(tone, RgbToHex(rgb), rgb, recommendations));
  }

  // ---------------------------------------------------------------------------
  // Properties of the analysis
  // ---------------------------------------------------------------------------

  /** The window holds (2s+1)^2 samples, and no more pixels than that are ever counted. */
  lemma AnalysisCountBound(img: Image)
    requires img.Valid()
    ensures Tally(Window(img)).count <= Side(img) * Side(img)
  {
    WindowShape(img);
  }

  /** The analysis fails exactly when no sample passes the skin test. */
  lemma AnalysisFailsIffNoSkin(img: Image, hue: (int, int, int) -> real)
    requires img.Valid()
    ensures AnalysisOf(img, hue).Failure? <==> forall i :: 0 <= i < |Window(img)| ==> !IsSkinLike(Window(img)[i])
  {
    TallyCountZero(Window(img));
  }

  /**
   * A successful result is consistent: its hex colour is rgbToHex of its
   * average, its tone is one of the nine keys with the table's entry, and
   * every channel of the average is at least the skin test's floor.
   */
  lemma AnalysisResultConsistent(img: Image, hue: (int, int, int) -> real)
    requires img.Valid() && AnalysisOf(img, hue).Success?
    ensures var res := AnalysisOf(img, hue).value;
      && res.dominantColor == RgbToHex(res.rgb)
      && res.skinTone in ToneKeys()
      && res.recommendations == ToneTable[res.skinTone]
      && res.rgb.r >= 96 && res.rgb.g >= 41 && res.rgb.b >= 21
  {
    var t := Tally(Window(img));
    TallyFloor(Window(img));
    RoundDivBetween(t.r, t.count, 96, 255);
    RoundDivBetween(t.g, t.count, 41, 255);
    RoundDivBetween(t.b, t.count, 21, 255);
  }

  /** Each channel of the average lies between the smallest and largest accepted value of that channel. */
  lemma AverageBetweenAccepted(img: Image, hue: (int, int, int) -> real, k: nat, lo: int, hi: int)
    requires img.Valid() && AnalysisOf(img, hue).Success? && k < 3
    requires forall i :: 0 <= i < |Window(img)| && IsSkinLike(Window(img)[i]) ==> lo <= Channel(Window(img)[i], k) <= hi
    ensures lo <= Channel(AnalysisOf(img, hue).value.rgb, k) <= hi
  {
    var t := Tally(Window(img));
    TallyBetween(Window(img), k, lo, hi);
    RoundDivBetween(SumOf(t, k), t.count, lo, hi);
  }

  /** A window of one colour yields exactly that colour if it looks like skin, and NoSkinDetected otherwise. */
  lemma AnalysisOfUniformWindow(img: Image, hue: (int, int, int) -> real, c: Rgb)
    requires img.Valid()
    requires forall i :: 0 <= i < |Window(img)| ==> Window(img)[i] == c
    ensures IsSkinLike(c) ==> AnalysisOf(img, hue) == Success(ResultFor(c, hue))
    ensures !IsSkinLike(c) ==> AnalysisOf(img, hue) == Failure(NoSkinDetected)
  {
    var ps := Window(img);
    if IsSkinLike(c) {
      TallyUniform(ps, c);
      WindowShape(img);
      RoundDivExact(c.r, |ps|);
      RoundDivExact(c.g, |ps|);
      RoundDivExact(c.b, |ps|);
    } else {
      TallyCountZero(ps);
    }
  }

  /**
   * A window uniformly (220, 180, 150) with a hue in the warm range is
   * "medium warm": its luminance, about 186, is not above 200.
   */
  lemma MediumWarmExample(img: Image, hue: (int, int, int) -> real)
    requires img.Valid()
    requires forall i :: 0 <= i < |Window(img)| ==> Window(img)[i] == Rgb(220, 180, 150)
    requires -30.0 < hue(220, 180, 150) < 60.0
    ensures AnalysisOf(img, hue).Success? && AnalysisOf(img, hue).value.skinTone == "medium warm"
  {
    var c := Rgb(220, 180, 150);
    assert MapRgbToSkinTone(c, hue(220, 180, 150)) == "medium warm" by {
      assert Luminance(c) == 1_863_380;
      assert DepthOf(c) == Medium;
      assert WarmthOf(hue(220, 180, 150)) == Warm;
      assert ToneKey(Medium, Warm) == "medium warm";
    }
    AnalysisOfUniformWindow(img, hue, c);
  }

  /**
   * A window uniformly (150, 68, 62) looks like skin and sits exactly at
   * luminance 85, yet its tone is deep, as the double-precision sum makes it.
   */
  lemma DeepAtEightyFiveExample(img: Image, hue: (int, int, int) -> real)
    requires img.Valid()
    requires forall i :: 0 <= i < |Window(img)| ==> Window(img)[i] == Rgb(150, 68, 62)
    ensures AnalysisOf(img, hue).Success?
    ensures AnalysisOf(img, hue).value.skinTone == ToneKey(Deep, WarmthOf(hue(150, 68, 62)))
  {
    var c := Rgb(150, 68, 62);
    assert IsSkinLike(c);
    assert Luminance(c) == 850_000 && DepthOf(c) == Deep;
    AnalysisOfUniformWindow(img, hue, c);
  }

  /** A window uniformly (40, 60, 80), bluish and not reddish, fails the skin test. */
  lemma BluishWindowExample(img: Image, hue: (int, int, int) -> real)
    requires img.Valid()
    requires forall i :: 0 <= i < |Window(img)| ==> Window(img)[i] == Rgb(40, 60, 80)
    ensures AnalysisOf(img, hue) == Failure(NoSkinDetected)
  {
    AnalysisOfUniformWindow(img, hue, Rgb(40, 60, 80));
  }
}
