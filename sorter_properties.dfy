/**
 * What the classifier promises, stated over all inputs: one if-and-only-if
 * per disposition, the exact reason text of each, inclusive thresholds,
 * indifference to the order of the three dimensions, monotonicity, and the
 * relation between sort and sortWithReason.
 */
module SorterProperties {
  import opened NumberText
  import opened PackageSorter

  /** REJECTED exactly for a valid parcel that is both heavy and bulky; the reason joins both explanations. */
  lemma RejectedIff(width: real, height: real, length: real, mass: real, config: SortConfig, fmt: NumberFormat)
    ensures SortWithReason(width, height, length, mass, config, fmt).Ok?
              && SortWithReason(width, height, length, mass, config, fmt).value.classification == REJECTED
            <==> AllPositive(width, height, length, mass) && Heavy(mass, config) && Bulky(width, height, length, config)
    ensures AllPositive(width, height, length, mass) && Heavy(mass, config) && Bulky(width, height, length, config) ==>
              SortWithReason(width, height, length, mass, config, fmt).value.reason
              == OverweightReason(mass, fmt) + " and " + BulkyReason(width, height, length, config, fmt)
  {
  }

  /** SPECIAL exactly for a valid parcel that is heavy or bulky but not both; the reason names the one condition. */
  lemma SpecialIff(width: real, height: real, length: real, mass: real, config: SortConfig, fmt: NumberFormat)
    ensures SortWithReason(width, height, length, mass, config, fmt).Ok?
              && SortWithReason(width, height, length, mass, config, fmt).value.classification == SPECIAL
            <==> AllPositive(width, height, length, mass) && Heavy(mass, config) != Bulky(width, height, length, config)
    ensures AllPositive(width, height, length, mass) && Heavy(mass, config) && !Bulky(width, height, length, config) ==>
              SortWithReason(width, height, length, mass, config, fmt).value.reason == OverweightReason(mass, fmt)
    ensures AllPositive(width, height, length, mass) && !Heavy(mass, config) && Bulky(width, height, length, config) ==>
              SortWithReason(width, height, length, mass, config, fmt).value.reason
              == BulkyReason(width, height, length, config, fmt)
  {
  }

  /** STANDARD exactly for a valid parcel that is neither heavy nor bulky, and only then is the reason empty. */
  lemma StandardIff(width: real, height: real, length: real, mass: real, config: SortConfig, fmt: NumberFormat)
    ensures SortWithReason(width, height, length, mass, config, fmt).Ok?
              && SortWithReason(width, height, length, mass, config, fmt).value.classification == STANDARD
            <==> AllPositive(width, height, length, mass) && !Heavy(mass, config) && !Bulky(width, height, length, config)
    ensures SortWithReason(width, height, length, mass, config, fmt).Ok? ==>
              (SortWithReason(width, height, length, mass, config, fmt).value.reason == ""
               <==> !Heavy(mass, config) && !Bulky(width, height, length, config))
  {
  }

  /** t is the tail of s. */
  predicate EndsWith(s: string, t: string) {
    |t| <= |s| && s[|s| - |t|..] == t
  }

  lemma PrefixOfAppend(a: string, b: string)
    ensures a <= a + b
  {
    assert (a + b)[..|a|] == a;
  }

  lemma SuffixOfAppend(a: string, b: string)
    ensures EndsWith(a + b, b)
  {
    assert (a + b)[|a + b| - |b|..] == b;
  }

  /** The oversize texts that show a volume, split after the volume. */
  lemma VolumeTextSplits(head: string, d: string)
    ensures head + " cm³, max dimension: " + d + " cm)" == head + " cm³" + (", max dimension: " + d + " cm)")
    ensures head + " cm³)" == head + " cm³" + ")"
  {
    assert " cm³, max dimension: " == " cm³" + ", max dimension: ";
    assert " cm³)" == " cm³" + ")";
  }

  /** The oversize texts that show a dimension, split before the dimension. */
  lemma DimensionTextSplits(lead: string, v: string, d: string)
    ensures lead + "oversized (volume: " + v + " cm³, max dimension: " + d + " cm)"
            == (lead + "oversized (volume: " + v + " cm³, ") + ("max dimension: " + d + " cm)")
    ensures lead + "oversized (max dimension: " + d + " cm)" == (lead + "oversized (") + ("max dimension: " + d + " cm)")
  {
    assert " cm³, max dimension: " == " cm³, " + "max dimension: ";
    assert "oversized (max dimension: " == "oversized (" + "max dimension: ";
  }

  /** The volume threshold is inclusive, and the reason then shows the threshold volume. */
  lemma VolumeThresholdInclusive(width: real, height: real, length: real, mass: real,
                                 config: SortConfig, fmt: NumberFormat)
    requires AllPositive(width, height, length, mass)
    requires Volume(width, height, length) == config.volumeThreshold
    ensures BulkyByVolume(width, height, length, config)
    ensures var r := SortWithReason(width, height, length, mass, config, fmt).value;
            var lead := if Heavy(mass, config) then OverweightReason(mass, fmt) + " and " else "";
            r.classification != STANDARD
            && lead + "oversized (volume: " + fmt.grouped(config.volumeThreshold) + " cm³" <= r.reason
  {
    var lead := if Heavy(mass, config) then OverweightReason(mass, fmt) + " and " else "";
    var head := lead + "oversized (volume: " + fmt.grouped(config.volumeThreshold);
    var d := fmt.plain(MaxDimension(width, height, length));
    OversizedReasonForms(width, height, length, mass, config, fmt);
    VolumeTextSplits(head, d);
    if BulkyByDimension(width, height, length, config) {
      PrefixOfAppend(head + " cm³", ", max dimension: " + d + " cm)");
    } else {
      PrefixOfAppend(head + " cm³", ")");
    }
  }

  /** The dimension threshold is inclusive, and the reason then ends with the threshold dimension. */
  lemma DimensionThresholdInclusive(width: real, height: real, length: real, mass: real,
                                    config: SortConfig, fmt: NumberFormat)
    requires AllPositive(width, height, length, mass)
    requires MaxDimension(width, height, length) == config.dimensionThreshold
    ensures BulkyByDimension(width, height, length, config)
    ensures var r := SortWithReason(width, height, length, mass, config, fmt).value;
            r.classification != STANDARD
            && EndsWith(r.reason, "max dimension: " + fmt.plain(config.dimensionThreshold) + " cm)")
  {
    var lead := if Heavy(mass, config) then OverweightReason(mass, fmt) + " and " else "";
    var d := fmt.plain(config.dimensionThreshold);
    var v := fmt.grouped(width * height * length);
    OversizedReasonForms(width, height, length, mass, config, fmt);
    DimensionTextSplits(lead, v, d);
    if BulkyByVolume(width, height, length, config) {
      SuffixOfAppend(lead + "oversized (volume: " + v + " cm³, ", "max dimension: " + d + " cm)");
    } else {
      SuffixOfAppend(lead + "oversized (", "max dimension: " + d + " cm)");
    }
  }

  /** The mass threshold is inclusive, and the reason then begins with the overweight text. */
  lemma MassThresholdInclusive(width: real, height: real, length: real, mass: real,
                               config: SortConfig, fmt: NumberFormat)
    requires AllPositive(width, height, length, mass)
    requires mass == config.massThreshold
    ensures Heavy(mass, config)
    ensures var r := SortWithReason(width, height, length, mass, config, fmt).value;
            r.classification != STANDARD && OverweightReason(config.massThreshold, fmt) <= r.reason
  {
    var reason := SortWithReason(width, height, length, mass, config, fmt).value.reason;
    var o := OverweightReason(mass, fmt);
    if Bulky(width, height, length, config) {
      assert reason == o + (" and " + BulkyReason(width, height, length, config, fmt));
      assert reason[..|o|] == o;
    }
  }

  /**
   * The text of a bulky parcel's reason in each of the three cases, after
   * the overweight part when the parcel is also heavy.
   */
  lemma OversizedReasonForms(width: real, height: real, length: real, mass: real, config: SortConfig, fmt: NumberFormat)
    requires AllPositive(width, height, length, mass)
    ensures var reason := SortWithReason(width, height, length, mass, config, fmt).value.reason;
            var lead := if Heavy(mass, config) then OverweightReason(mass, fmt) + " and " else "";
            var volume := fmt.grouped(width * height * length);
            var maxDimension := fmt.plain(MaxDimension(width, height, length));
            && (BulkyByVolume(width, height, length, config) && BulkyByDimension(width, height, length, config) ==>
                  reason == lead + "oversized (volume: " + volume + " cm³, max dimension: " + maxDimension + " cm)")
            && (BulkyByVolume(width, height, length, config) && !BulkyByDimension(width, height, length, config) ==>
                  reason == lead + "oversized (volume: " + volume + " cm³)")
            && (!BulkyByVolume(width, height, length, config) && BulkyByDimension(width, height, length, config) ==>
                  reason == lead + "oversized (max dimension: " + maxDimension + " cm)")
  {
    var lead := if Heavy(mass, config) then OverweightReason(mass, fmt) + " and " else "";
    var bulkyReason := BulkyReason(width, height, length, config, fmt);
    if Bulky(width, height, length, config) {
      assert SortWithReason(width, height, length, mass, config, fmt).value.reason == lead + bulkyReason;
    }
  }

  /**
   * A heavy and bulky parcel's reason is the overweight explanation joined to
   * the reason the same box would get if it were light.
   */
  lemma RejectedReasonJoinsSpecialReason(width: real, height: real, length: real, mass: real, lightMass: real,
                                         config: SortConfig, fmt: NumberFormat)
    requires AllPositive(width, height, length, mass) && lightMass > 0.0
    requires Heavy(mass, config) && !Heavy(lightMass, config) && Bulky(width, height, length, config)
    ensures SortWithReason(width, height, length, mass, config, fmt).value.reason
            == OverweightReason(mass, fmt) + " and " + SortWithReason(width, height, length, lightMass, config, fmt).value.reason
  {
  }

  lemma SwapWidthHeight(width: real, height: real, length: real, mass: real, config: SortConfig, fmt: NumberFormat)
    ensures SortWithReason(height, width, length, mass, config, fmt) == SortWithReason(width, height, length, mass, config, fmt)
  {
  }

  lemma SwapHeightLength(width: real, height: real, length: real, mass: real, config: SortConfig, fmt: NumberFormat)
    ensures SortWithReason(width, length, height, mass, config, fmt) == SortWithReason(width, height, length, mass, config, fmt)
  {
  }

  /**
   * The whole result, reason included, is the same for all six orders of the
   * three dimensions: volume is a product and the dimension test a maximum.
   * This holds of exact reals; in IEEE-754 doubles the product can round
   * differently with the order of its factors.
   */
  lemma PermutationInvariant(width: real, height: real, length: real, mass: real, config: SortConfig, fmt: NumberFormat)
    ensures var r := SortWithReason(width, height, length, mass, config, fmt);
            && SortWithReason(width, length, height, mass, config, fmt) == r
            && SortWithReason(height, width, length, mass, config, fmt) == r
            && SortWithReason(height, length, width, mass, config, fmt) == r
            && SortWithReason(length, width, height, mass, config, fmt) == r
            && SortWithReason(length, height, width, mass, config, fmt) == r
  {
    SwapHeightLength(width, height, length, mass, config, fmt);
    SwapWidthHeight(width, height, length, mass, config, fmt);
    SwapHeightLength(height, width, length, mass, config, fmt);
    SwapWidthHeight(width, length, height, mass, config, fmt);
    SwapWidthHeight(height, length, width, mass, config, fmt);
  }

  /** The dispositions ordered from least to most restrictive. */
  function Severity(c: Classification): nat {
    match c
    case STANDARD => 0
    case SPECIAL => 1
    case REJECTED => 2
  }

  lemma ScaleMonotone(a: real, b: real, c: real)
    requires 0.0 <= a <= b && 0.0 <= c
    ensures a * c <= b * c
  {
  }

  lemma VolumeMonotone(width: real, height: real, length: real, width': real, height': real, length': real)
    requires 0.0 < width <= width' && 0.0 < height <= height' && 0.0 < length <= length'
    ensures Volume(width, height, length) <= Volume(width', height', length')
  {
    ScaleMonotone(width, width', height);
    ScaleMonotone(height, height', width');
    assert width * height <= width' * height';
    ScaleMonotone(width * height, width' * height', length);
    ScaleMonotone(length, length', width' * height');
  }

  /** A parcel that is no smaller in any dimension and no lighter is never classified less restrictively. */
  lemma LargerNeverLessRestrictive(width: real, height: real, length: real, mass: real,
                                   width': real, height': real, length': real, mass': real,
                                   config: SortConfig, fmt: NumberFormat)
    requires AllPositive(width, height, length, mass)
    requires width <= width' && height <= height' && length <= length' && mass <= mass'
    ensures SortWithReason(width', height', length', mass', config, fmt).Ok?
    ensures Severity(SortWithReason(width, height, length, mass, config, fmt).value.classification)
            <= Severity(SortWithReason(width', height', length', mass', config, fmt).value.classification)
  {
    VolumeMonotone(width, height, length, width', height', length');
  }

  /** The number rendering never affects the classification, only the reason. */
  lemma ClassificationIgnoresFormat(width: real, height: real, length: real, mass: real, config: SortConfig,
                                    fmt: NumberFormat, fmt': NumberFormat)
    ensures SortWithReason(width, height, length, mass, config, fmt).Ok?
            == SortWithReason(width, height, length, mass, config, fmt').Ok?
    ensures SortWithReason(width, height, length, mass, config, fmt).Ok? ==>
              SortWithReason(width, height, length, mass, config, fmt).value.classification
              == SortWithReason(width, height, length, mass, config, fmt').value.classification
  {
  }

  /** sort is the classification of sortWithReason under the default thresholds. */
  lemma SortIsDefaultClassification(width: real, height: real, length: real, mass: real, fmt: NumberFormat)
    ensures Sort(width, height, length, mass, fmt).Ok? == SortWithReason(width, height, length, mass, DefaultConfig, fmt).Ok?
    ensures Sort(width, height, length, mass, fmt).Ok? ==>
              Sort(width, height, length, mass, fmt).value
              == SortWithReason(width, height, length, mass, DefaultConfig, fmt).value.classification
  {
  }
}
