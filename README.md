# Resistor colour-code scanner: a verified model

This project models the camera scanner of the resistor colour-code page
(`resistor-colorcode-gen/script.js`). A frame from the camera is reduced to
one horizontal strip. The strip becomes one averaged colour per column. Each
column is matched to the nearest entry of a fixed palette of twelve band
colours. The resulting scan line is cut into runs of one colour, and the most
frequent colour is taken as the resistor body. Narrow runs and runs of the
body colour are dropped. Bands of one colour split by a small gap are merged.
The first three or four bands then set the page's band selections, which
give a resistance `(digit1 * 10 + digit2) * multiplier`. The reverse
direction, from a typed value to three colour bands (`generateColorCode`),
is modelled too.

Modules, one per file:

- `Wrappers`: `Option` and `Result`.
- `Palette`: the twelve-entry table `BAND_COLORS`.
- `Classifier`: `classifyColor`, the first-nearest palette search, over an
  abstract distance function.
- `Sampler`: the strip position, the strip read and the nested column/row
  averaging loop.
- `Runs`: the run-length encoding loop.
- `BodyDetection`: the per-name pixel counts, their entries and the stable
  descending sort.
- `BandMerge`: the merge loop's invariant, with its ghost record of which
  merged band holds each input band, and the lemmas that carry it.
- `Segmenter`: the noise filter, the body choice with its fallback, the
  merge loop and the whole of `scanResistorBands`.
- `Decoder`: `applyDetectedBands` on a `Selections` object, and the value
  formula of `generateResistorValue`.
- `ColorCode`: the digit extraction and colour lookup of `generateColorCode`.

Where the code is a loop that updates variables, the model is a method with
loop invariants, proved against a function or predicate that states what the
loop computes. Where the code is a pure expression, the model is a function,
and lemmas relate the functions.

## Model

| member | source | states |
|---|---|---|
| Palette.PaletteNamesDistinct | resistor-colorcode-gen/script.js:87-100 | the palette has twelve entries with pairwise distinct names |
| Palette.PaletteValues | resistor-colorcode-gen/script.js:87-100 | entries 0-9 have digit i and multiplier 10^i; Gold has no digit, tolerance 5 and multiplier 0.1; Silver has no digit, tolerance 10 and multiplier 0.01; every entry has a multiplier; only the first ten have a digit |
| Classifier.Distances | resistor-colorcode-gen/script.js:136-137 | one distance per palette entry, in palette order |
| Classifier.FirstMinIndex | resistor-colorcode-gen/script.js:134-139 | the chosen index holds a value no larger than any other, and every earlier value is strictly larger (the strict `<` keeps the first minimum) |
| Classifier.NearestIndex | resistor-colorcode-gen/script.js:132-140 | the chosen palette index is at least as close as every entry and strictly closer than every earlier one |
| Classifier.NearestIndexUnique | resistor-colorcode-gen/script.js:134-139 | those two properties determine the chosen index: any index that has both is the one picked |
| Classifier.Nearest | resistor-colorcode-gen/script.js:132-141 | the classification of a colour is a palette entry with its distance, at least as close as every entry and strictly closer than every earlier one |
| Classifier.ClassifyColor | resistor-colorcode-gen/script.js:132-141 | the loop that starts from an infinite best distance returns the first nearest entry, which is a palette entry at distance no larger than any entry's |
| Classifier.ClassifyAll | resistor-colorcode-gen/script.js:191 | one classification per column, column x classified from colour x |
| Sampler.StripHeight | resistor-colorcode-gen/script.js:169 | the strip height is the integer nearest to h/5 and no larger than h |
| Sampler.StripTop | resistor-colorcode-gen/script.js:170 | the strip lies inside the frame, and its centre is within half a row of h/2 |
| Sampler.IndexInBounds | resistor-colorcode-gen/script.js:177-181 | every index `(row*w + x)*4 + k` read by the loop lies inside the strip buffer |
| Sampler.Strip | resistor-colorcode-gen/script.js:171 | the strip read from the frame holds, pixel by pixel, the frame rows from the strip top on |
| Sampler.ColumnSum | resistor-colorcode-gen/script.js:176-182 | a column's channel sum over n rows lies in [0, 255n] |
| Sampler.RoundedMean | resistor-colorcode-gen/script.js:184-186 | the result is within half a step of s/n, with halves rounded up, and a mean of bytes is a byte |
| Sampler.RoundedMeanBounds | resistor-colorcode-gen/script.js:184-186 | `(2s + n) / 2n` satisfies both bounds of `Math.round(s / n)` |
| Sampler.ColumnMean | resistor-colorcode-gen/script.js:176-187 | each channel of a column's colour is the integer nearest to that channel's mean down the column |
| Sampler.SampleColumns | resistor-colorcode-gen/script.js:174-188 | exactly w colours, in column order, each the rounded per-channel mean of its column |
| Runs.EncodeRuns | resistor-colorcode-gen/script.js:196-203 | runs are non-empty; the first starts at 0 and each starts where the previous ended; lengths add up to the line length; neighbours differ in name; every column of a run has its name; each run carries its first column's match; expanding the runs gives back the names |
| Runs.PushRun | resistor-colorcode-gen/script.js:199-201 | closing a run extends an encoding of the first columns to an encoding of more columns |
| Runs.TilesOrdered | resistor-colorcode-gen/script.js:196-203 | runs that tile the line lie left to right, disjoint and inside it |
| Runs.RunsMaximal | resistor-colorcode-gen/script.js:196-203 | every run of the encoding is maximal: a column of another name, or the edge, lies on either side |
| Runs.MaximalRunsOverlap | resistor-colorcode-gen/script.js:196-203 | two maximal runs of a line that share a column are the same run |
| Runs.RunAt | resistor-colorcode-gen/script.js:196-203 | runs that tile the line have a run holding each column |
| BodyDetection.CountOf | resistor-colorcode-gen/script.js:208 | the columns counted for a name are at most the columns of all runs |
| BodyDetection.CountPixels | resistor-colorcode-gen/script.js:206-209 | one key per distinct name, in order of first appearance, and each key's count is the number of columns of its runs |
| BodyDetection.FirstAppearances | resistor-colorcode-gen/script.js:206-209 | the keys are pairwise distinct, and every run's name is a key |
| BodyDetection.FirstAppearancesAreNames | resistor-colorcode-gen/script.js:206-209 | every key is the name of some run |
| BodyDetection.CountsSumToLength | resistor-colorcode-gen/script.js:206-209 | the per-name counts add up to the number of columns the runs cover |
| BodyDetection.Entries | resistor-colorcode-gen/script.js:211 | `Object.entries`: one pair per key, in key order |
| BodyDetection.Insert | resistor-colorcode-gen/script.js:211 | inserting into a list adds one entry: the result holds exactly the inserted entry and the list's entries |
| BodyDetection.SortDesc | resistor-colorcode-gen/script.js:211 | the sorted list is as long as the entries |
| BodyDetection.SortDescElements | resistor-colorcode-gen/script.js:211 | the sort is a permutation of the entries |
| BodyDetection.SortDescIsDescending | resistor-colorcode-gen/script.js:211 | the sorted counts never increase |
| BodyDetection.SortSelectsFirstMax | resistor-colorcode-gen/script.js:211 | the stable sort puts the first entry of largest count in front, followed by the sorted rest |
| BodyDetection.FirstMaxIndex | resistor-colorcode-gen/script.js:211 | no count is larger than the chosen one, and every earlier count is strictly smaller |
| BodyDetection.MostFrequentFirst | resistor-colorcode-gen/script.js:211 | `sorted[0]` is the first key, in key order, of largest count |
| BodyDetection.MostFrequentName | resistor-colorcode-gen/script.js:205-211 | outside the fallback the body colour is the first name, in order of first appearance, whose runs cover the most columns: no name covers more, and every name seen earlier covers strictly fewer |
| BodyDetection.RunnerUpSecond | resistor-colorcode-gen/script.js:223-225 | `sorted[1]` is the first key of largest count once the most frequent one is removed |
| Segmenter.MinBandWidth | resistor-colorcode-gen/script.js:214 | the minimum width is the integer nearest to 1.5% of the width, halves rounded up |
| Segmenter.Significant | resistor-colorcode-gen/script.js:215 | the kept runs are exactly the runs at least minW wide, and order is kept |
| Segmenter.WithoutName | resistor-colorcode-gen/script.js:218 | the kept runs are exactly the runs of any other colour than the body, and order is kept |
| Segmenter.DetectBody | resistor-colorcode-gen/script.js:211-233 | the body is the first sorted key, unless that leaves fewer than three bands, there is more than one colour and the second key leaves at least three; the bands are the significant runs not of the body colour |
| Segmenter.PushAll | resistor-colorcode-gen/script.js:229-230 | the runs pushed one by one onto the emptied band list leave exactly those runs, in order, after the list's previous contents |
| Segmenter.ChooseBody | resistor-colorcode-gen/script.js:205-233 | the significant runs are the runs at least minW wide; the body colour is `ChosenBody`, the same choice over the pixel counts of all runs; the bands are the significant runs not of the body colour; the body colour is the name of some run |
| Segmenter.ChosenBodyIsRunName | resistor-colorcode-gen/script.js:211-233 | the body colour chosen for the runs of a line is the name of one of those runs |
| BandMerge.ChainedOrdered | resistor-colorcode-gen/script.js:236-244 | non-empty bands, each ending before the next starts, are ordered and disjoint |
| BandMerge.CoverUnique | resistor-colorcode-gen/script.js:236-244 | a non-empty band lies inside at most one of a list of disjoint bands |
| BandMerge.InputsJoined | resistor-colorcode-gen/script.js:237-239 | once every input band is taken, two neighbouring input bands lie in one merged band exactly when they have the same colour and less than 2*minW columns between them |
| BandMerge.MergingComplete | resistor-colorcode-gen/script.js:236-244 | the merge loop's invariant, once all input bands are taken, gives every property listed for MergeBands |
| Segmenter.MergeBands | resistor-colorcode-gen/script.js:236-244 | the merged list is no longer than the input and empty only for an empty input; it is ordered and disjoint; each band starts where an input band of its colour starts, with that band's match, and ends where one ends; neighbouring bands of one colour are at least 2*minW apart; every input band lies inside a merged band of its colour; two neighbouring input bands lie in one merged band exactly when they have the same colour and the second starts less than 2*minW columns after the first ends |
| Segmenter.ProvenanceThroughFilter | resistor-colorcode-gen/script.js:218 | a band built from runs not of the body colour starts and ends like a run of the unfiltered list, and is not of the body colour |
| Segmenter.StartColour | resistor-colorcode-gen/script.js:200 | a band starting like a maximal run carries the match of its first column |
| Segmenter.SortedKeyIsRunName | resistor-colorcode-gen/script.js:211 | every key of the sorted counts names some run |
| Segmenter.SignificantMaximal | resistor-colorcode-gen/script.js:196-215 | when maximal runs tile the line, the significant runs are exactly the maximal runs of the line at least minW wide |
| Segmenter.FilteredNonEmpty | resistor-colorcode-gen/script.js:215-218 | both filters keep only non-empty runs |
| Segmenter.MergeNonBody | resistor-colorcode-gen/script.js:236-246 | the bands are ordered, non-empty and not of the body colour; they start and end like significant runs and carry their first column's match; bands of one colour stay apart; every significant run not of the body colour lies inside a band; two neighbouring such runs share a band exactly when they have the same colour and less than 2*minW columns between them |
| Segmenter.SegmentLine | resistor-colorcode-gen/script.js:196-246 | the result is a scan of the classified line: the significant runs are, in order, exactly the maximal runs of the line at least MinBandWidth wide; the body colour occurs on the line, and it is the colour `ChosenBody` picks for the maximal runs that tile the line (the most frequent colour, or the runner-up in the fallback); the bands have all the properties of MergeNonBody, the merge rule in both directions included |
| Segmenter.ScanLine | resistor-colorcode-gen/script.js:169-191 | the classified line of a frame has one entry per column |
| Segmenter.ScanResistorBands | resistor-colorcode-gen/script.js:164-247 | a frame of no columns or an empty strip gives an error (`getImageData` refuses it); any other frame gives a scan of its classified strip, with all the properties of SegmentLine, the body choice included |
| Decoder.ResistorValue | resistor-colorcode-gen/script.js:57 | dividing the resistance by a non-zero multiplier gives back the two-digit number `digit1 * 10 + digit2` |
| Decoder.ResistorValueAsWritten | resistor-colorcode-gen/script.js:54-57 | the resistance as written is the resistance under the multiplier's whole part: unchanged for a whole multiplier, 0 for a multiplier below 1 |
| Decoder.DisplayAsWritten | resistor-colorcode-gen/script.js:54-72 | as written, nothing is shown exactly when the multiplier is below 1 (the swatch lookup is `colorCodes[NaN]` and reading its colour throws); otherwise the resistance under the multiplier's whole part is shown |
| Decoder.FractionalMultiplierNotShown | resistor-colorcode-gen/script.js:54-72 | with a Gold or Silver multiplier and non-zero digits, nothing is shown as written, while the value those colours stand for is not 0 |
| Decoder.ParseIntOf | resistor-colorcode-gen/script.js:54 | `parseInt` of a non-negative number's text is its integer part |
| Decoder.PaletteDecoding | resistor-colorcode-gen/script.js:57 | two digit colours i, j with a multiplier colour m read (10i + j)·10^m for m below 10, a tenth of 10i + j for Gold, and a hundredth for Silver |
| Decoder.BrownBlackRed | resistor-colorcode-gen/script.js:57 | Brown, Black, Red reads 1000 ohms |
| Decoder.AsWrittenAgreesOnWholeMultipliers | resistor-colorcode-gen/script.js:54-57 | for the ten whole multipliers, reading the multiplier with `parseInt` changes nothing |
| Decoder.FractionalMultiplierLost | resistor-colorcode-gen/script.js:54-57 | with a Gold or Silver multiplier, any non-zero digits give a `resistorValue` of 0 as written, while the intended value is not 0 |
| Decoder.BrownBlackGold | resistor-colorcode-gen/script.js:54-57 | Brown, Black, Gold gives a `resistorValue` of 0 as written instead of 1 |
| Decoder.Selections.ApplyDetectedBands | resistor-colorcode-gen/script.js:257-285 | with fewer than three bands it returns false and changes nothing; otherwise it returns true, each selection takes its band's digit, multiplier or tolerance when that is not null and keeps its old value otherwise, and the value of the new selections is shown |
| ColorCode.DigitColoursMatchPalette | resistor-colorcode-gen/script.js:1-11 | the ten digit colours of `colorCodes` are named like the first ten palette entries |
| ColorCode.CodeValue | resistor-colorcode-gen/script.js:57 | a code's three colours read the two-digit number times 10^m for a digit colour m, a tenth of it for Gold and a hundredth for Silver |
| ColorCode.Digits | resistor-colorcode-gen/script.js:29 | the decimal digits of a value are at least one, each below 10, with no leading zero |
| ColorCode.DigitsRoundTrip | resistor-colorcode-gen/script.js:29 | reading the digits back gives the value |
| ColorCode.DigitsLength | resistor-colorcode-gen/script.js:29-32 | a value of n digits lies in [10^(n-1), 10^n) |
| ColorCode.ColorCodeAsWritten | resistor-colorcode-gen/script.js:21-36 | NaN or a value below 1 is refused; the multiplier entry `(digits - 2) + 1` has no colour exactly when the value is at least 10^10; the colours found are digit colours |
| ColorCode.AsWrittenCode | resistor-colorcode-gen/script.js:29-36 | the as-written colours are the first digit, the second digit (0 when there is none) and entry digits - 1 |
| ColorCode.TwoSignificantLeading | resistor-colorcode-gen/script.js:30-32 | a value of n digits cut to two digits is its two leading digits followed by n - 2 zeros |
| ColorCode.TwoSignificantExact | resistor-colorcode-gen/script.js:30-32 | a value equals its two-digit cut exactly when all digits after the second are 0 |
| ColorCode.AsWrittenTenTimesTooLarge | resistor-colorcode-gen/script.js:29-36 | decoding the as-written colours gives ten times the value cut to two digits |
| ColorCode.FourSeventyAsWritten | resistor-colorcode-gen/script.js:29-36 | 470 gives Yellow, Violet, Red, which reads 4700; the intended Yellow, Violet, Brown reads 470 |
| ColorCode.ColorCodeIntended | resistor-colorcode-gen/script.js:29-36 | the evidently intended code: NaN or a value below 1 is refused; a value of 10^11 or more has no multiplier colour; the colours found are digit colours or Gold |
| ColorCode.IntendedCode | resistor-colorcode-gen/script.js:29-36 | the intended colours are the first digit, the second digit and entry digits - 2, or the digit, Black and Gold for one digit |
| ColorCode.IntendedRoundTrip | resistor-colorcode-gen/script.js:29-36 | decoding the intended colours gives the value cut to two digits, which is the value itself exactly when its digits after the second are 0 |

## Left out

- `rgbToLab`, `colorDistanceLab` and `rgbToHsl` use floating-point powers, cube roots and square roots. The perceptual distance is a parameter of the classifier instead, and `rgbToHsl` is never called.
- Floating point in general. Distances are `real`, so NaN distances are not modelled. Rounding of the multipliers 0.1 and 0.01 is not modelled either, since they are exact reals here.
- The canvas and the page. `getContext` and `getImageData` become a byte buffer and the `Strip` function. The `.value` reads and writes of the four `<select>` elements become the fields of `Selections`. `innerHTML` rendering and `alert` are not part of this model.
- The camera functions (`startCamera`, `stopCamera`, `captureAndScan`, the global stream), the retake handler and the `DOMContentLoaded` wiring. These are browser I/O and event plumbing.
- The swatch lookup `multiplier / Math.pow(10, Math.log10(multiplier))` in `generateResistorValue` (script.js:61), for a multiplier of at least 1. It is float arithmetic used only to pick a colour to display. For a multiplier read as 0 the lookup is `colorCodes[NaN]`, which is undefined, and reading its `hex` at script.js:72 throws. `Decoder.DisplayAsWritten` models that case as nothing shown.
- `formatValue`. It is string rendering through `toFixed`.
- `parseInt` on text: the model takes the parsed number, or None for NaN. Values above 2^53 and exponent notation are not modelled.
- MergeBands: requires its input bands in left-to-right order. Every caller passes filtered runs of an encoding, which are ordered (`Runs.TilesOrdered`).
- Update in place is modelled by values. `merged[merged.length - 1].len = …` becomes the replacement of the last merged band. The `{ ...band }` copies become plain values. As a result, `allRuns` can never be changed by the merge, and aliasing is not a question in the model.
- Decoder.Selections.ApplyDetectedBands: the value it shows is the intended `(digit1 * 10 + digit2) * multiplier`, and it then returns true. As written, a Gold or Silver multiplier makes `generateResistorValue` throw at script.js:72, so the call throws at script.js:284 instead of returning true and nothing is shown. The code as written is modelled by `Decoder.ResistorValueAsWritten` and `Decoder.DisplayAsWritten` (see Findings).
- The tolerance selection holds any number. The HTML option lists that restrict the selections are not part of this model.
- Decoder.DisplayAsWritten: takes the tolerance swatch lookup `colorCodes.tolerance[tolerance]` (script.js:62) to succeed, as it does for the tolerances of the palette; a tolerance selection without a swatch would make the display throw at script.js:74 as well.
- The following differ from a plain reading of the page's behaviour, and the model follows the code:
  - The fallback tests the number of distinct names among all runs, not among the significant runs (script.js:222).
  - A null band field is not a failure: the selection simply keeps its previous value.
  - There is no "too few bands" error from the scan itself. Only `applyDetectedBands` refuses fewer than three bands.

## Findings

| source | as written | input that shows it | evidently intended | confidence | as-written member | corrected member |
|---|---|---|---|---|---|---|
| resistor-colorcode-gen/script.js:54-72 | the multiplier selection is read with `parseInt`, so 0.1 and 0.01 become 0; the swatch lookup at line 61 is then `colorCodes[NaN]`, and reading its `hex` at line 72 throws | Brown, Black, Gold: `resistorValue` is 0 and the display throws at line 72, so nothing is shown | the multiplier is used as a number: Brown, Black, Gold is 1 ohm | not executed; follows from `parseInt("0.1") == 0` and `Math.log10(0) == -Infinity` | Decoder.FractionalMultiplierNotShown | Decoder.PaletteDecoding |
| resistor-colorcode-gen/script.js:32-36 | the multiplier colour is `colorCodes[(digits - 2) + 1]`, one power of ten too large | 470: Yellow, Violet, Red, which reads 4700 | entry `digits - 2`: Yellow, Violet, Brown | not executed; follows from the colour table | ColorCode.AsWrittenTenTimesTooLarge | ColorCode.IntendedRoundTrip |
