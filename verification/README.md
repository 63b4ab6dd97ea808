# Colour and skin advisor: a Dafny model of its classifiers

This project models the decision logic of a beauty-advice web application.
It covers four parts.

- **The skin-tone classifier of the colour library** (`src/lib/color-analysis.ts`).
  It samples a square window around the centre of a decoded image, with coordinates clamped into the image.
  It keeps the pixels that pass a fixed integer skin test and averages them with `Math.round`.
  When no pixel passes, it fails with the "Could not detect skin tone" error.
  Otherwise it names the average "<depth> <warmth>" and looks that name up in a nine-entry recommendation table.
- **The season classifier of the home page** (`src/app/page.tsx`).
  It averages every pixel of a small rectangle of the photo.
  It calls the average Warm, Cool or Neutral, and splits Warm and Cool by brightness into four seasons.
  It then shows the season's entries in four constant tables.
  The page's React state is the class `HomePage.ColorAnalysisPage`.
- **The colour namer of the outfit planner** (`src/app/outfit/page.tsx`).
  It parses `#rrggbb` into channels and runs an ordered chain of tests that picks one of eleven colour names.
  The name selects a suggestion record.
- **The skin-type quiz** (`src/app/skin/page.tsx`).
  Five yes/no answers, a single-answer update, a priority decision over the answers, and the tips shown for the result.

The JavaScript number built-ins the pages rely on are in module `Numbers`: `Math.round` of a quotient, `toString(16)` and `parseInt(_, 16)`.
The imperative parts are methods proved against specification functions:
- the nested sampling loops of `performAnalysis`;
- the stride-4 averaging loop and the sequential season assignments of the home page.

Everything else is functions and lemmas.

Modelling choices:
- The decoded image is a grid of byte triples (`ColorAnalysis.Image`).
- The canvas bytes of the home page's sample rectangle are a parameter of `AnalyzeColorFromPhoto`.
- The floating-point hue angle (`atan2`) enters as a parameter `hue` from the average colour to a real number of degrees.
- The luminance weights are scaled by 10000, so luminance is exact integer arithmetic.
- The percentages of the window sizes are exact integer quotients. Both are listed under "Left out".
- Brightness `(r + g + b) / 3` is an exact real number.

## Model

| member | source | states |
|---|---|---|
| Numbers.RoundDiv | src/lib/color-analysis.ts:167-169 | `Math.round(sum / count)` for a non-negative sum and a positive count: the result q satisfies q - 1/2 <= sum/count < q + 1/2, so halves round up |
| Numbers.RoundDivBetween | src/lib/color-analysis.ts:167-169 | a rounded mean stays within any bounds that every summand respects |
| Numbers.RoundDivExact | src/lib/color-analysis.ts:167-169 | averaging n copies of a value gives the value back |
| Numbers.ToHexString | src/lib/color-analysis.ts:25 | `toString(16)` yields lower-case hexadecimal digits with no leading zero: a single digit exactly when n < 16, and a first digit other than 0 when there are more |
| Numbers.ParseToHexString | src/lib/color-analysis.ts:25 | `parseInt(n.toString(16), 16) == n` for every non-negative n |
| Numbers.ToHexStringByte | src/lib/color-analysis.ts:25 | shifting a number left by 8 bits and adding a byte appends the byte's two hex digits to its `toString(16)` |
| Numbers.ParseHex | src/app/outfit/page.tsx:64-66 | `parseInt(s, 16)` of k hexadecimal digits is below 16^k |
| Numbers.ParseHexByte | src/app/outfit/page.tsx:64-66 | parsing the two hex digits of a byte gives the byte back |
| Numbers.ParseHexPairIsByte | src/app/outfit/page.tsx:64-66 | `parseInt` of any two hex digits is in 0..255 |
| ColorAnalysis.ToHexStringThreeBytes | src/lib/color-analysis.ts:25 | appending three bytes to a number appends their six hex digits, in order, to its `toString(16)` |
| ColorAnalysis.PackedRgbDigits | src/lib/color-analysis.ts:25 | the hex digits of `(1 << 24) + (r << 16) + (g << 8) + b` are a leading 1 followed by two digits per channel |
| ColorAnalysis.RgbToHex | src/lib/color-analysis.ts:24-26 | rgbToHex returns `#` and exactly six lower-case digits, two per channel in red, green, blue order |
| ColorAnalysis.Luminance | src/lib/color-analysis.ts:29 | the BT.709 luminance scaled by 10000: 2126 r + 7152 g + 722 b (definition only) |
| ColorAnalysis.DepthOf | src/lib/color-analysis.ts:29-34 | fair exactly when luminance > 200; deep exactly when luminance < 85 or the colour is one of the six byte colours of luminance exactly 85 whose double-precision sum rounds to 84.99999999999999; medium otherwise |
| ColorAnalysis.RoundedBelowEightyFiveAtBoundary | src/lib/color-analysis.ts:29-34 | each of those six colours has luminance exactly 85 and is deep |
| ColorAnalysis.WarmthOf | src/lib/color-analysis.ts:36-38 | warm exactly for hue in (-30, 60), cool exactly for hue <= -30 or >= 170, neutral exactly for [60, 170) |
| ColorAnalysis.ToneKeyIsKey | src/lib/color-analysis.ts:40 | every "<depth> <warmth>" string is one of the nine table keys |
| ColorAnalysis.ToneKeyInjective | src/lib/color-analysis.ts:40 | different (depth, warmth) pairs give different keys |
| ColorAnalysis.MapRgbToSkinTone | src/lib/color-analysis.ts:28-41 | mapRgbToSkinTone always returns one of the nine keys |
| ColorAnalysis.ColorRecommendationsForTone | src/lib/color-analysis.ts:43-127 | a key's table entry (five fashion colours, two lipsticks, two blushes, three to avoid); the default bundle (3/1/1/2) for any other string |
| ColorAnalysis.ToneTable | src/lib/color-analysis.ts:44-117 | the nine-entry recommendation table, transcribed entry by entry |
| ColorAnalysis.DefaultRecommendations | src/lib/color-analysis.ts:119-126 | the fallback bundle: three fashion colours, one lipstick, one blush, two colours to avoid |
| ColorAnalysis.SkinToneNeverDefault | src/lib/color-analysis.ts:119 | the classifier's tone is always a table key, so the default bundle is never returned for it |
| ColorAnalysis.Clamp | src/lib/color-analysis.ts:144-145 | the clamped coordinate lies in [0, hi]; in-range values are kept, values below become 0 and values above become hi |
| ColorAnalysis.IsSkinLike | src/lib/color-analysis.ts:150-152 | the skin test; it holds exactly when r > 95, g > 40, b > 20, r > b and r - g > 15, so its spread test never decides |
| ColorAnalysis.SampleAt | src/lib/color-analysis.ts:144-147 | the pixel at the centre plus the offset, each coordinate clamped into the image (definition only; see SampleAtPosition) |
| ColorAnalysis.SampleAtPosition | src/lib/color-analysis.ts:144-147 | the pixel sampled at offset (dx, dy) is the centre pixel plus the offset when that stays inside the image, and the corner pixel beyond a corner |
| ColorAnalysis.SampleSize | src/lib/color-analysis.ts:136 | the window's half-side is at least 1 |
| ColorAnalysis.Window | src/lib/color-analysis.ts:142-147 | the samples of the nested dx/dy loops in loop order (definition only; see WindowLength and WindowShape) |
| ColorAnalysis.WindowLength | src/lib/color-analysis.ts:142-143 | the two loops from -s to s visit (2s+1)^2 positions |
| ColorAnalysis.WindowShape | src/lib/color-analysis.ts:142-147 | the window lists (2s+1)^2 samples; sample number i(2s+1)+j is the clamped pixel at offset (i-s, j-s), in dx-major, dy-minor order |
| ColorAnalysis.Step | src/lib/color-analysis.ts:154-159 | a pixel that fails the skin test leaves the sums and count unchanged; one that passes adds one to the count |
| ColorAnalysis.Tally | src/lib/color-analysis.ts:149-159 | the skin-filter accumulator counts at most one per sample, and each channel sum is at most 255 per counted sample |
| ColorAnalysis.TallyConcat | src/lib/color-analysis.ts:142-161 | accumulating two runs of samples one after the other is accumulating their concatenation |
| ColorAnalysis.WindowTallyIsTally | src/lib/color-analysis.ts:142-161 | the column-by-column sums of the nested loops equal the accumulator over the whole window |
| ColorAnalysis.TallyCountZero | src/lib/color-analysis.ts:163 | the count is zero exactly when no sample passes the skin test |
| ColorAnalysis.TallyFloor | src/lib/color-analysis.ts:150 | the channel sums are at least 96, 41 and 21 per counted sample |
| ColorAnalysis.TallyUniform | src/lib/color-analysis.ts:149-159 | samples of one skin-like colour give count n and sums n times the colour |
| ColorAnalysis.ScanColumn | src/lib/color-analysis.ts:143-160 | the inner dy loop adds to the running sums exactly the skin-like samples of one column |
| ColorAnalysis.ScanWindow | src/lib/color-analysis.ts:142-161 | the nested loops leave the accumulator of the whole window |
| ColorAnalysis.Average | src/lib/color-analysis.ts:167-169 | each channel of the average is within half a unit of its sum divided by the count |
| ColorAnalysis.AnalysisError.Message | src/lib/color-analysis.ts:164 | the text of the error thrown when no pixel looks like skin (definition only) |
| ColorAnalysis.ResultFor | src/lib/color-analysis.ts:171-181 | the result record of an average colour: its tone, rgbToHex, the colour and the tone's recommendations (definition only; see AnalysisResultConsistent) |
| ColorAnalysis.AnalysisOf | src/lib/color-analysis.ts:163-181 | the specification of performAnalysis: a failure is always NoSkinDetected; a success carries one of the nine tone keys and that key's full table bundle |
| ColorAnalysis.PerformAnalysis | src/lib/color-analysis.ts:130-182 | performAnalysis returns the NoSkinDetected failure or the classified rounded average, as the specification function `AnalysisOf` describes |
| ColorAnalysis.AnalysisCountBound | src/lib/color-analysis.ts:142-158 | no more than (2s+1)^2 pixels are ever counted |
| ColorAnalysis.AnalysisFailsIffNoSkin | src/lib/color-analysis.ts:163-165 | the analysis fails exactly when no sample in the window passes the skin test |
| ColorAnalysis.AnalysisResultConsistent | src/lib/color-analysis.ts:167-181 | a result's hex is rgbToHex of its average, its tone is a table key with that key's entry, and its channels are at least 96, 41 and 21 |
| ColorAnalysis.AverageBetweenAccepted | src/lib/color-analysis.ts:167-169 | each channel of the average lies between the smallest and largest accepted value of that channel |
| ColorAnalysis.AnalysisOfUniformWindow | src/lib/color-analysis.ts:142-174 | a window of one colour yields exactly that colour when it is skin-like, and the failure otherwise |
| ColorAnalysis.MediumWarmExample | src/lib/color-analysis.ts:28-41 | a uniform (220, 180, 150) window with a warm hue is "medium warm" |
| ColorAnalysis.DeepAtEightyFiveExample | src/lib/color-analysis.ts:28-41 | a uniform (150, 68, 62) window is skin-like at luminance exactly 85 and is classified deep |
| ColorAnalysis.BluishWindowExample | src/lib/color-analysis.ts:150-152 | a uniform (40, 60, 80) window fails the skin test |
| HomePage.ColorPalettes | src/app/page.tsx:16-22 | the five-colour palette of each season |
| HomePage.AvoidPalettes | src/app/page.tsx:24-30 | the colours to avoid: five for each warm or cool season, none for Neutral |
| HomePage.ClothingShapeAdvice | src/app/page.tsx:32-53 | the neckline advice of each season |
| HomePage.HairColorAdvice | src/app/page.tsx:55-76 | the hair-colour advice of each season |
| HomePage.TablesShareKeys | src/app/page.tsx:16-76 | the four season tables have exactly the same five keys |
| HomePage.PaletteFor | src/app/page.tsx:163 | a season's palette, the Neutral palette for an unknown name; always five colours |
| HomePage.AvoidFor | src/app/page.tsx:164 | five colours to avoid for the four warm and cool seasons, none for Neutral or an unknown name |
| HomePage.SampleRect | src/app/page.tsx:138-141 | the rectangle is at least 10 by 10: 8% by 5% of the canvas, corner at 45% and 60% (integer floors) |
| HomePage.RectDataShape | src/app/page.tsx:142-149 | the rectangle's RGBA bytes hold at least 100 whole pixels, so the pixel count is positive |
| HomePage.ChannelSum | src/app/page.tsx:143-149 | a channel summed over n pixels at stride 4 is at most 255 n |
| HomePage.ChannelMean | src/app/page.tsx:150-152 | the rounded mean of a channel over every pixel lies within half a unit of the exact mean |
| HomePage.AverageRect | src/app/page.tsx:143-152 | the stride-4 loop returns the rounded mean of each channel over every pixel, with nothing filtered |
| HomePage.AverageOfUniformRect | src/app/page.tsx:143-152 | a rectangle of one colour averages to that colour |
| HomePage.IsWarm | src/app/page.tsx:153 | the warm test: red leads green by more than 8 and blue by more than 6, so red is the largest channel |
| HomePage.IsCool | src/app/page.tsx:154 | the cool test: blue leads red by more than 6 and green by more than 4, so blue is largest and the colour is never warm |
| HomePage.UndertoneOf | src/app/page.tsx:153-155 | Warm exactly when the warm test holds and Cool exactly when the cool test holds: the two tests never both hold |
| HomePage.Brightness | src/app/page.tsx:156 | brightness above 140 exactly when the channel sum is above 420, above 130 exactly when it is above 390 |
| HomePage.SeasonOf | src/app/page.tsx:156-161 | Warm Spring iff Warm with channel sum > 420, Warm Autumn iff Warm with sum <= 420, Cool Summer iff Cool with sum > 390, Cool Winter iff Cool with sum <= 390, otherwise Neutral; always a table key |
| HomePage.SeasonIsTableKey | src/app/page.tsx:162-170 | every computed season is a key of all four tables, so no lookup falls back or is undefined |
| HomePage.GreyIsNeutral | src/app/page.tsx:153-161 | a grey (equal channels) is Neutral with the Neutral palette and nothing to avoid |
| HomePage.ColorAnalysisPage.constructor | src/app/page.tsx:88-94 | the page starts with no photo, no undertone, empty palettes and no results |
| HomePage.ColorAnalysisPage.OnImage | src/app/page.tsx:115-121 | with no file chosen nothing changes; otherwise the file's data URL becomes the photo and nothing else changes |
| HomePage.ColorAnalysisPage.AnalyzeColorFromPhoto | src/app/page.tsx:123-167 | without a photo: the toast and no change; otherwise the undertone, both palettes and the scan results of the rectangle's rounded mean, keeping the page's consistency invariant |
| HomePage.ColorAnalysisPage.Reset | src/app/page.tsx:206 | photo, results, undertone, palette and avoid palette are all cleared together |
| HomePage.ColorAnalysisPage.ShapeAdviceShown | src/app/page.tsx:169 | no advice without a result; with a result, the season's neckline advice, always defined |
| HomePage.ColorAnalysisPage.HairAdviceShown | src/app/page.tsx:170 | no advice without a result; with a result, the season's hair advice, always defined |
| OutfitPage.ColorCategories | src/app/outfit/page.tsx:14-26 | the eleven suggestion records, keyed by colour name |
| OutfitPage.IsRedTest | src/app/outfit/page.tsx:29-31 | the red test (red largest, above 150, green and blue below 100) excludes every later colour test |
| OutfitPage.IsPinkTest | src/app/outfit/page.tsx:32 | the pink test implies a channel sum above 500 and excludes the yellow, orange and purple tests |
| OutfitPage.IsYellowTest | src/app/outfit/page.tsx:35 | the yellow test excludes the purple test |
| OutfitPage.IsOrangeTest | src/app/outfit/page.tsx:36 | the part of the orange test with green above 150 is shadowed by the yellow test; orange excludes purple |
| OutfitPage.IsPurpleTest | src/app/outfit/page.tsx:37 | the purple test implies green is not the largest channel |
| OutfitPage.GetDominantColorName | src/app/outfit/page.tsx:28-52 | the name is always one of the eleven table keys |
| OutfitPage.StrongRedIsRed | src/app/outfit/page.tsx:29-31 | red strictly largest with r > 150, g < 100, b < 100 gives red |
| OutfitPage.PureWhiteIsPink | src/app/outfit/page.tsx:32 | (255, 255, 255) is named pink, not white |
| OutfitPage.WhiteExactly | src/app/outfit/page.tsx:32-41 | a byte colour is named white exactly when g = b, r <= 200 and r + g + b > 660 |
| OutfitPage.BlueLargestIsBlue | src/app/outfit/page.tsx:33 | blue strictly largest and not pink gives blue |
| OutfitPage.GreenLargestIsGreen | src/app/outfit/page.tsx:34 | green strictly largest and not pink gives green |
| OutfitPage.OrangeRange | src/app/outfit/page.tsx:35-36 | orange only for r > 200, 100 < g <= 150, b < 100; with g above 150 the yellow rule wins |
| OutfitPage.OrangeReachable | src/app/outfit/page.tsx:36 | (255, 120, 0) is named orange |
| OutfitPage.BrightnessRules | src/app/outfit/page.tsx:39-51 | after the colour tests: sum < 150 black, > 660 white, near-grey gray below 540 and brown above, else the largest channel with ties going to red, then green |
| OutfitPage.ParseHexColor | src/app/outfit/page.tsx:64-66 | each channel is the value of its two hex digits |
| OutfitPage.ParseRgbToHex | src/app/outfit/page.tsx:64-66 | parsing rgbToHex's output gives the colour back |
| OutfitPage.HandleColorChange | src/app/outfit/page.tsx:59-70 | the picked value is kept and the suggestions are the table entry of its colour name; the white fallback is never used |
| OutfitPage.InitialStateNotReproduced | src/app/outfit/page.tsx:56-57 | the page opens on #ffffff with the white suggestions, but picking #ffffff shows the pink ones |
| SkinPage.HandleQuizChange | src/app/skin/page.tsx:33-35 | the toggled answer becomes the new value and the other four are unchanged |
| SkinPage.ChangeUndone | src/app/skin/page.tsx:34 | setting an answer back to its old value restores the quiz |
| SkinPage.DetectSkinTypeFromQuiz | src/app/skin/page.tsx:39-46 | "Not determined" exactly for a missing quiz; otherwise Sensitive iff sensitive, and among the rest oily-and-acne, oily, dry, normal in that priority, each as an if-and-only-if |
| SkinPage.SunburnsIrrelevant | src/app/skin/page.tsx:39-46 | the sunburn answer never changes the skin type |
| SkinPage.TipGroup | src/app/skin/page.tsx:97-101 | the items rendered for a skin type never include the SPF tip; oily skin with acne renders its two items |
| SkinPage.TipGroupShape | src/app/skin/page.tsx:97-101 | each skin type renders exactly one group of one or two items (two only for oily with acne) |
| SkinPage.Tips | src/app/skin/page.tsx:96-103 | the list is the skin type's group followed by the SPF tip when the skin burns easily |
| SkinPage.InitialQuizShown | src/app/skin/page.tsx:21 | the all-unticked opening quiz is normal or combination skin, with only its one tip |
| SkinPage.ShownTips | src/app/skin/page.tsx:21 | the shown label is never "Not determined" and the list holds one to three items |

## Left out

- Image decoding and pixel reads (Jimp, canvas `drawImage`/`getImageData`, `FileReader`) are foreign I/O. The model receives the decoded pixel grid and the rectangle's RGBA bytes.
- The asynchronous `onload` callbacks and the null checks on the canvas and its 2D context are not modelled. The home-page analysis is modelled as completing at once.
- ColorAnalysis.MapRgbToSkinTone: the hue angle (`atan2`, `sqrt`) is floating point and is a parameter.
- ColorAnalysis.DepthOf: luminance is integer-scaled, and double-precision rounding is not modelled as such. Its only effect on byte colours is written out instead. Six colours of luminance exactly 85 have a double sum of 84.99999999999999, so the original calls them deep; one of them, (150, 68, 62), passes the skin test. The model lists these six as deep. No byte colour's double sum falls on the other side of 200. This list is a property of IEEE doubles and is not proved here.
- ColorAnalysis.SampleSize and HomePage.SampleRect use the exact integer quotients m/20, 2W/25, 9W/20 and 3H/5 for `floor(x * 0.05)`, `floor(x * 0.08)`, `floor(x * 0.45)` and `floor(x * 0.6)`. For every dimension from 0 to 200000 these agree with the floors of the double-precision products. That agreement is a property of IEEE doubles and is not proved here.
- HomePage.Brightness is the exact real (r + g + b) / 3, and so is the brightness stored in `ScanResults`; the page stores a double. Every comparison the page makes with it (above or at most 140, above or at most 130) gives the same answer for channel sums up to 765.
- `getImageData` returns transparent black for pixels outside the canvas. The model takes the bytes as given and does not relate them to the photo.
- Persistence through localforage (loading and saving the profile on both pages) is not modelled. The skin page's save also uses `await` in a non-async handler, so it is not valid as written.
- The server action wrapping `performAnalysis`, the LLM flows and all presentation components are not part of this model.
- The table hex strings are transcribed as written and are not claimed to be well-formed. One of them, `#003J3C`, is not valid hexadecimal.
- OutfitPage.ParseHexColor: requires the seven-character colour value that the colour input supplies. `NaN` or partial `parseInt` results for other strings are not modelled.
- Lookups of names such as `constructor` that JavaScript objects inherit are not modelled. The maps hold only the listed keys.
- ColorAnalysis.ScanColumn and ColorAnalysis.ScanWindow are the inner and outer loops of `performAnalysis`'s nested loop, written as two methods.
- SkinPage.DetectSkinTypeFromQuiz returns an enumeration whose `Label()` gives the displayed strings. The tips compare against that enumeration rather than against the strings.
- SkinPage.ShownTips: the page keeps the skin type as separate state (src/app/skin/page.tsx:22). It is null on the first render and is set by an effect after each quiz change (src/app/skin/page.tsx:48-50). The model computes the skin type from the current quiz. It leaves out the first render, which shows no label and no tip group, and the one render after each change that shows the previous skin type beside the new sunburn answer.
