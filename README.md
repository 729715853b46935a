# Parcel sorter, modelled in Dafny

This project models the parcel classifier of a small web application. A
parcel is described by its width, height and length (cm) and its mass (kg).
`sortWithReason` refuses any input that is zero or negative. Otherwise it
computes the volume and the largest dimension. The parcel is *bulky* when the
volume or the largest dimension reaches its threshold, and *heavy* when the
mass reaches its threshold. The pair (heavy, bulky) selects one of three
dispositions:

- STANDARD when neither holds;
- SPECIAL when exactly one holds;
- REJECTED when both hold.

A reason string explains every disposition other than STANDARD. `sort` returns
only the disposition, under the default thresholds: 1,000,000 cm³, 150 cm and
20 kg.

Files:

- `package_sorter.dfy` (module `PackageSorter`): the data types and the
  classifier itself, as pure functions. The thrown error becomes
  `Err(InvalidMeasurement)`; `InvalidMeasurement.Message()` is its fixed text.
  The optional configuration argument becomes an explicit `SortConfig`, with
  `DefaultConfig` as the default.
- `number_text.dfy` (module `NumberText`): how numbers become text. The
  classifier takes the runtime's two renderings as a parameter `fmt`:
  `fmt.plain` is a number inside a template literal and `fmt.grouped` is
  `toLocaleString()`. The module also defines the en-US rendering of whole
  numbers below 2^53 (`Digits`, `Grouped`), which the concrete scenarios use.
  Its lemmas (`ValueOfDigits`, `UngroupedGrouped` and the two injectivity
  lemmas) are facts about this rendering: it can be read back, and it loses
  nothing. The classifier itself promises nothing about reading its reason
  text back, and no property of the classifier depends on these lemmas.
- `sorter_properties.dfy` (module `SorterProperties`): the properties over all
  inputs. These are an if-and-only-if for each disposition with its exact
  reason, inclusive thresholds, invariance under any reordering of the three
  dimensions, monotonicity, and how `sort` relates to `sortWithReason`.
- `sorter_examples.dfy` (module `SorterExamples`): the concrete parcels of the
  test suite, proved about the model.

All numbers are exact reals.

## Model

| member | source | states |
|---|---|---|
| `PackageSorter.SortWithReason` | src/packageSorter.ts:34-83 | fails exactly when some input is zero or negative; otherwise the disposition is the 2×2 table applied to (heavy, bulky), and the reason is empty exactly when the disposition is STANDARD |
| `PackageSorter.Sort` | src/packageSorter.ts:17-20 | fails exactly on a non-positive input; otherwise the disposition is the table applied to mass ≥ 20 and to volume ≥ 1,000,000 or largest dimension ≥ 150 |
| `PackageSorter.MaxDimension` | src/packageSorter.ts:50 | the result is at least each dimension and equals one of them |
| `PackageSorter.BulkyReason` | src/packageSorter.ts:62-68 | the oversize explanation is non-empty exactly when the parcel is bulky by volume or by dimension |
| `SorterProperties.RejectedIff` | src/packageSorter.ts:71-73 | REJECTED exactly for a valid parcel that is heavy and bulky; its reason is the overweight text, " and ", then the oversize text |
| `SorterProperties.SpecialIff` | src/packageSorter.ts:74-79 | SPECIAL exactly for a valid parcel that is heavy or bulky but not both; heavy only gives "overweight (<mass> kg)", bulky only gives the oversize text |
| `SorterProperties.StandardIff` | src/packageSorter.ts:71-82 | STANDARD exactly for a valid parcel that is neither heavy nor bulky; a successful result's reason is empty exactly then |
| `SorterProperties.VolumeThresholdInclusive` | src/packageSorter.ts:51-72 | a volume exactly equal to its threshold makes the parcel bulky by volume and non-STANDARD, and the reason shows "oversized (volume: <threshold, grouped> cm³" right after any overweight text |
| `SorterProperties.DimensionThresholdInclusive` | src/packageSorter.ts:50-67 | a largest dimension exactly equal to its threshold makes the parcel bulky by dimension and non-STANDARD, and the reason ends with "max dimension: <threshold> cm)" |
| `SorterProperties.MassThresholdInclusive` | src/packageSorter.ts:56-75 | a mass exactly equal to its threshold makes the parcel heavy and non-STANDARD, and the reason begins with "overweight (<threshold> kg)" |
| `SorterProperties.OversizedReasonForms` | src/packageSorter.ts:62-72 | the exact text for bulky by both, by volume only and by dimension only, each after the overweight text when the parcel is heavy |
| `SorterProperties.RejectedReasonJoinsSpecialReason` | src/packageSorter.ts:71-79 | a rejected parcel's reason is the overweight text joined to the reason the same box gets with a light mass |
| `SorterProperties.PermutationInvariant` | src/packageSorter.ts:47-53 | the whole result, reason included, is the same for all six orders of width, height and length |
| `SorterProperties.VolumeMonotone` | src/packageSorter.ts:47 | the volume does not shrink when no dimension shrinks |
| `SorterProperties.LargerNeverLessRestrictive` | src/packageSorter.ts:47-56 | a parcel that is no smaller in any dimension and no lighter is valid and never gets a less restrictive disposition |
| `SorterProperties.ClassificationIgnoresFormat` | src/packageSorter.ts:62-82 | the number rendering affects only the reason, never success or the disposition |
| `SorterProperties.SortIsDefaultClassification` | src/packageSorter.ts:17-32 | `sort` succeeds exactly when `sortWithReason` with the default thresholds does, and returns its disposition |
| `NumberText.Digits` | src/packageSorter.ts:75 | the plain text of a whole number (JavaScript's text below 2^53) is a non-empty string of decimal digits without a leading zero |
| `NumberText.ValueOfDigits` | src/packageSorter.ts:75 | reading the digits back gives the number (the plain rendering loses nothing) |
| `NumberText.DigitsInjective` | src/packageSorter.ts:72 | distinct whole numbers get distinct plain texts |
| `NumberText.Grouped` | src/packageSorter.ts:65 | the grouped text of a number below 1000 is all digits; above, a comma precedes the last three digits |
| `NumberText.UngroupedGrouped` | src/packageSorter.ts:65 | removing the commas from the grouped text gives the plain digits |
| `NumberText.GroupedInjective` | src/packageSorter.ts:63 | distinct whole numbers get distinct grouped texts |
| `SorterExamples.SortScenarios` | src/packageSorter.test.ts:5-126 | the disposition of each parcel in the suite, the decimal and boundary cases included, and the error for each zero or negative input |
| `SorterExamples.EnUsGivesScenarioNumbers` | src/packageSorter.ts:63-67 | the en-US rendering gives "25", "200", "1,000,000" and "8,000,000" |
| `SorterExamples.StandardScenario` | src/packageSorter.test.ts:130-134 | (50, 50, 50, 10) is STANDARD with an empty reason |
| `SorterExamples.OverweightScenario` | src/packageSorter.test.ts:136-140 | (50, 50, 50, 25) is SPECIAL with "overweight (25 kg)" |
| `SorterExamples.OversizedByVolumeScenario` | src/packageSorter.test.ts:142-146 | (100, 100, 100, 10) is SPECIAL with "oversized (volume: 1,000,000 cm³)" |
| `SorterExamples.OversizedByDimensionScenario` | src/packageSorter.test.ts:148-152 | (200, 10, 10, 10) is SPECIAL with "oversized (max dimension: 200 cm)" |
| `SorterExamples.OversizedByBothScenario` | src/packageSorter.test.ts:154-158 | (200, 200, 200, 10) is SPECIAL with "oversized (volume: 8,000,000 cm³, max dimension: 200 cm)" |
| `SorterExamples.RejectedByDimensionScenario` | src/packageSorter.test.ts:160-164 | (200, 10, 10, 25) is REJECTED with "overweight (25 kg) and oversized (max dimension: 200 cm)" |
| `SorterExamples.RejectedByVolumeScenario` | src/packageSorter.test.ts:166-170 | (100, 100, 100, 25) is REJECTED with "overweight (25 kg) and oversized (volume: 1,000,000 cm³)" |

## Left out

- src/App.tsx is not part of this model. It is the React user interface: form parsing with `parseFloat`, a timestamped history list, settings editing and colour mapping. None of it decides anything.
- The `Package` record (src/packageSorter.ts:1-10) belongs to that interface's history list and is not used by the classifier.
- NumberText.Digits: whole numbers from 2^53 up are not modelled. There JavaScript prints at most 17 significant digits and pads with zeros, so `${2**64}` is "18446744073709552000", and from 1e21 it uses exponent form ("1e+21"). `Digits` and `Grouped` print every digit, so `RendersWholeNumbersEnUs` ties them to the runtime only below 2^53.
- SorterProperties.PermutationInvariant: holds for exact reals only. In IEEE-754 doubles `(w*h)*l` and `(w*l)*h` can round differently, so a parcel right at the volume threshold, and the grouped volume text, can depend on the order of the dimensions.
- Floating point is out of scope. Inputs are exact reals, so the model does not capture the IEEE-754 rounding of `width * height * length`. NaN and Infinity, which the source's validation lets through, cannot occur.
- The rendering of non-whole numbers (JavaScript's shortest round-trip decimal text) and locales other than en-US are not modelled. The classifier takes the rendering as the parameter `fmt`; the exact-text scenarios assume only what `RendersWholeNumbersEnUs` states.
- PackageSorter.Sort: takes the rendering `fmt` as a parameter, because the reason is computed inside the call; `ClassificationIgnoresFormat` shows that the result never depends on it. It returns the `Classification` datatype rather than its tag string; `Classification.Name()` gives the tag.
- Calling the classifier twice with the same arguments gives the same result. Every member here is a function, so this holds by construction and has no lemma of its own.
