/**
 * Concrete parcels from the classifier's test suite
 * (src/packageSorter.test.ts), proved about the model. The dispositions hold
 * for every number rendering; the exact reason texts assume the en-US
 * rendering of whole numbers.
 */
module SorterExamples {
  import opened NumberText
  import opened PackageSorter

  /** The dispositions the tests expect from sort under the default thresholds. */
  lemma SortScenarios(fmt: NumberFormat)
    // standard parcels, including the ones just under each threshold
    ensures Sort(10.0, 10.0, 10.0, 5.0, fmt) == Ok(STANDARD)
    ensures Sort(99.0, 99.0, 100.0, 10.0, fmt) == Ok(STANDARD)
    ensures Sort(149.0, 10.0, 10.0, 10.0, fmt) == Ok(STANDARD)
    ensures Sort(50.0, 50.0, 50.0, 19.99, fmt) == Ok(STANDARD)
    // special parcels, whichever axis reaches 150 cm
    ensures Sort(100.0, 100.0, 100.0, 10.0, fmt) == Ok(SPECIAL)
    ensures Sort(150.0, 10.0, 10.0, 10.0, fmt) == Ok(SPECIAL)
    ensures Sort(10.0, 150.0, 10.0, 10.0, fmt) == Ok(SPECIAL)
    ensures Sort(10.0, 10.0, 150.0, 10.0, fmt) == Ok(SPECIAL)
    ensures Sort(50.0, 50.0, 50.0, 20.0, fmt) == Ok(SPECIAL)
    ensures Sort(10.0, 10.0, 10.0, 100.0, fmt) == Ok(SPECIAL)
    // rejected parcels, including one exactly at two thresholds
    ensures Sort(100.0, 100.0, 100.0, 25.0, fmt) == Ok(REJECTED)
    ensures Sort(150.0, 10.0, 10.0, 25.0, fmt) == Ok(REJECTED)
    ensures Sort(200.0, 200.0, 200.0, 50.0, fmt) == Ok(REJECTED)
    ensures Sort(150.0, 10.0, 10.0, 20.0, fmt) == Ok(REJECTED)
    // decimal values
    ensures Sort(99.9, 99.9, 100.1, 19.9, fmt) == Ok(STANDARD)
    ensures Sort(100.0, 100.0, 100.0, 19.9, fmt) == Ok(SPECIAL)
    // real-world parcels
    ensures Sort(23.0, 16.0, 0.5, 0.1, fmt) == Ok(STANDARD)
    ensures Sort(30.0, 20.0, 15.0, 2.0, fmt) == Ok(STANDARD)
    ensures Sort(120.0, 80.0, 60.0, 15.0, fmt) == Ok(STANDARD)
    ensures Sort(5.0, 5.0, 200.0, 10.0, fmt) == Ok(SPECIAL)
    ensures Sort(20.0, 20.0, 20.0, 25.0, fmt) == Ok(SPECIAL)
    ensures Sort(180.0, 120.0, 80.0, 30.0, fmt) == Ok(REJECTED)
    // a zero or negative input is refused
    ensures Sort(0.0, 10.0, 10.0, 10.0, fmt) == Err(InvalidMeasurement)
    ensures Sort(10.0, -5.0, 10.0, 10.0, fmt) == Err(InvalidMeasurement)
    ensures Sort(10.0, 10.0, 0.0, 10.0, fmt) == Err(InvalidMeasurement)
    ensures Sort(10.0, 10.0, 10.0, -1.0, fmt) == Err(InvalidMeasurement)
  {
  }

  /** The texts the scenarios need from the number rendering. */
  predicate EnUsScenarioNumbers(fmt: NumberFormat) {
    && fmt.plain(25.0) == "25" && fmt.plain(200.0) == "200"
    && fmt.grouped(1000000.0) == "1,000,000" && fmt.grouped(8000000.0) == "8,000,000"
  }

  /** The en-US rendering of whole numbers gives those texts. */
  lemma EnUsGivesScenarioNumbers(fmt: NumberFormat)
    requires RendersWholeNumbersEnUs(fmt)
    ensures EnUsScenarioNumbers(fmt)
  {
    PlainTwentyFive(fmt);
    PlainTwoHundred(fmt);
    GroupedOneMillion(fmt);
    GroupedEightMillion(fmt);
  }

  /** The en-US text of each whole number the scenarios show. */
  lemma PlainTwentyFive(fmt: NumberFormat)
    requires RendersWholeNumbersEnUs(fmt)
    ensures fmt.plain(25.0) == "25"
  {
    assert IsWhole(25.0) && 25.0 < ExactWholeLimit;
    assert Digits(25) == "25";
  }

  lemma PlainTwoHundred(fmt: NumberFormat)
    requires RendersWholeNumbersEnUs(fmt)
    ensures fmt.plain(200.0) == "200"
  {
    assert IsWhole(200.0) && 200.0 < ExactWholeLimit;
    assert Digits(200) == "200";
  }

  lemma GroupedOneMillion(fmt: NumberFormat)
    requires RendersWholeNumbersEnUs(fmt)
    ensures fmt.grouped(1000000.0) == "1,000,000"
  {
    assert IsWhole(1000000.0) && 1000000.0 < ExactWholeLimit;
    assert Grouped(1000000) == "1,000,000";
  }

  lemma GroupedEightMillion(fmt: NumberFormat)
    requires RendersWholeNumbersEnUs(fmt)
    ensures fmt.grouped(8000000.0) == "8,000,000"
  {
    assert IsWhole(8000000.0) && 8000000.0 < ExactWholeLimit;
    assert Grouped(8000000) == "8,000,000";
  }
  /** A standard parcel has an empty reason. */
  lemma StandardScenario(fmt: NumberFormat)
    ensures SortWithReason(50.0, 50.0, 50.0, 10.0, DefaultConfig, fmt) == Ok(SortResult(STANDARD, ""))
  {
  }

  lemma OverweightScenario(fmt: NumberFormat)
    requires EnUsScenarioNumbers(fmt)
    ensures SortWithReason(50.0, 50.0, 50.0, 25.0, DefaultConfig, fmt)
            == Ok(SortResult(SPECIAL, "overweight (25 kg)"))
  {
    assert OverweightReason(25.0, fmt) == "overweight (25 kg)";
  }

  lemma OversizedByVolumeScenario(fmt: NumberFormat)
    requires EnUsScenarioNumbers(fmt)
    ensures SortWithReason(100.0, 100.0, 100.0, 10.0, DefaultConfig, fmt)
            == Ok(SortResult(SPECIAL, "oversized (volume: 1,000,000 cm³)"))
  {
    assert Volume(100.0, 100.0, 100.0) == 1000000.0;
    assert BulkyReason(100.0, 100.0, 100.0, DefaultConfig, fmt) == "oversized (volume: 1,000,000 cm³)";
  }

  lemma OversizedByDimensionScenario(fmt: NumberFormat)
    requires EnUsScenarioNumbers(fmt)
    ensures SortWithReason(200.0, 10.0, 10.0, 10.0, DefaultConfig, fmt)
            == Ok(SortResult(SPECIAL, "oversized (max dimension: 200 cm)"))
  {
    assert MaxDimension(200.0, 10.0, 10.0) == 200.0;
    assert BulkyReason(200.0, 10.0, 10.0, DefaultConfig, fmt) == "oversized (max dimension: 200 cm)";
  }

  lemma OversizedByBothScenario(fmt: NumberFormat)
    requires EnUsScenarioNumbers(fmt)
    ensures SortWithReason(200.0, 200.0, 200.0, 10.0, DefaultConfig, fmt)
            == Ok(SortResult(SPECIAL, "oversized (volume: 8,000,000 cm³, max dimension: 200 cm)"))
  {
    assert Volume(200.0, 200.0, 200.0) == 8000000.0;
    assert MaxDimension(200.0, 200.0, 200.0) == 200.0;
    assert BulkyReason(200.0, 200.0, 200.0, DefaultConfig, fmt)
           == "oversized (volume: 8,000,000 cm³, max dimension: 200 cm)";
  }

  lemma RejectedByDimensionScenario(fmt: NumberFormat)
    requires EnUsScenarioNumbers(fmt)
    ensures SortWithReason(200.0, 10.0, 10.0, 25.0, DefaultConfig, fmt)
            == Ok(SortResult(REJECTED, "overweight (25 kg)" + " and " + "oversized (max dimension: 200 cm)"))
  {
    assert OverweightReason(25.0, fmt) == "overweight (25 kg)";
    assert BulkyReason(200.0, 10.0, 10.0, DefaultConfig, fmt) == "oversized (max dimension: 200 cm)";
  }

  lemma RejectedByVolumeScenario(fmt: NumberFormat)
    requires EnUsScenarioNumbers(fmt)
    ensures SortWithReason(100.0, 100.0, 100.0, 25.0, DefaultConfig, fmt)
            == Ok(SortResult(REJECTED, "overweight (25 kg)" + " and " + "oversized (volume: 1,000,000 cm³)"))
  {
    assert OverweightReason(25.0, fmt) == "overweight (25 kg)";
    assert BulkyReason(100.0, 100.0, 100.0, DefaultConfig, fmt) == "oversized (volume: 1,000,000 cm³)";
  }
}
