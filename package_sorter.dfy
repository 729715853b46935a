/**
 * The parcel classifier of src/packageSorter.ts.
 *
 * A parcel is given by its width, height and length (cm) and its mass (kg).
 * It is bulky when its volume or its largest dimension reaches a threshold,
 * and heavy when its mass reaches a threshold; the pair (heavy, bulky)
 * decides whether it is STANDARD, SPECIAL or REJECTED, and a reason string
 * explains every disposition other than STANDARD.
 *
 * Numbers are exact reals. The JavaScript exception becomes an Err result,
 * and the runtime's number rendering is the parameter `fmt`.
 */
module PackageSorter {
  import opened NumberText

  datatype Classification = STANDARD | SPECIAL | REJECTED {
    /** The tag string the source returns for this disposition. */
    function Name(): string {
      match this
      case STANDARD => "STANDARD"
      case SPECIAL => "SPECIAL"
      case REJECTED => "REJECTED"
    }
  }

  /** The one error the classifier raises. */
  datatype SortError = InvalidMeasurement {
    function Message(): string {
      "All dimensions and mass must be positive numbers"
    }
  }

  datatype Result<T> = Ok(value: T) | Err(error: SortError)

  /** The thresholds; each condition is met when the value reaches its threshold. */
  datatype SortConfig = SortConfig(volumeThreshold: real, dimensionThreshold: real, massThreshold: real)

  /** 1,000,000 cm³, 150 cm and 20 kg. */
  const DefaultConfig := SortConfig(1000000.0, 150.0, 20.0)

  datatype SortResult = SortResult(classification: Classification, reason: string)

  /** The only validation the classifier performs. */
  predicate AllPositive(width: real, height: real, length: real, mass: real) {
    width > 0.0 && height > 0.0 && length > 0.0 && mass > 0.0
  }

  function Volume(width: real, height: real, length: real): real {
    width * height * length
  }

  /** Math.max of the three dimensions. */
  function MaxDimension(width: real, height: real, length: real): (r: real)
    ensures r >= width && r >= height && r >= length
    ensures r == width || r == height || r == length
  {
    if width >= height && width >= length then width
    else if height >= length then height
    else length
  }

  predicate BulkyByVolume(width: real, height: real, length: real, config: SortConfig) {
    Volume(width, height, length) >= config.volumeThreshold
  }

  predicate BulkyByDimension(width: real, height: real, length: real, config: SortConfig) {
    MaxDimension(width, height, length) >= config.dimensionThreshold
  }

  predicate Bulky(width: real, height: real, length: real, config: SortConfig) {
    BulkyByVolume(width, height, length, config) || BulkyByDimension(width, height, length, config)
  }

  predicate Heavy(mass: real, config: SortConfig) {
    mass >= config.massThreshold
  }

  /** The disposition for a heavy/bulky pair, as a 2×2 table. */
  function Disposition(heavy: bool, bulky: bool): Classification {
    match (heavy, bulky)
    case (true, true) => REJECTED
    case (true, false) => SPECIAL
    case (false, true) => SPECIAL
    case (false, false) => STANDARD
  }

  /** The explanation of an overweight parcel. */
  function OverweightReason(mass: real, fmt: NumberFormat): string {
    "overweight (" + fmt.plain(mass) + " kg)"
  }

  /** The explanation of a bulky parcel: the volume, the largest dimension or both. */
  function BulkyReason(width: real, height: real, length: real, config: SortConfig, fmt: NumberFormat): (r: string)
    ensures r != "" <==> Bulky(width, height, length, config)
  {
    var volume := Volume(width, height, length);
    var maxDimension := MaxDimension(width, height, length);
    var byVolume := BulkyByVolume(width, height, length, config);
    var byDimension := BulkyByDimension(width, height, length, config);
    if byVolume && byDimension then
      "oversized (volume: " + fmt.grouped(volume) + " cm³, max dimension: " + fmt.plain(maxDimension) + " cm)"
    else if byVolume then
      "oversized (volume: " + fmt.grouped(volume) + " cm³)"
    else if byDimension then
      "oversized (max dimension: " + fmt.plain(maxDimension) + " cm)"
    else
      ""
  }

  /**
   * sortWithReason: fails on any non-positive input; otherwise the
   * disposition is the 2×2 table applied to (heavy, bulky), and the reason
   * is empty exactly for a STANDARD parcel.
   */
  function SortWithReason(width: real, height: real, length: real, mass: real,
                          config: SortConfig, fmt: NumberFormat): (r: Result<SortResult>)
    ensures r.Err? <==> !AllPositive(width, height, length, mass)
    ensures r.Ok? ==> r.value.classification == Disposition(Heavy(mass, config), Bulky(width, height, length, config))
    ensures r.Ok? ==> (r.value.reason == "" <==> r.value.classification == STANDARD)
  {
    if width <= 0.0 || height <= 0.0 || length <= 0.0 || mass <= 0.0 then
      Err(InvalidMeasurement)
    else
      var isBulky := Bulky(width, height, length, config);
      var isHeavy := Heavy(mass, config);
      var bulkyReason := BulkyReason(width, height, length, config, fmt);
      if isHeavy && isBulky then
        Ok(SortResult(REJECTED, OverweightReason(mass, fmt) + " and " + bulkyReason))
      else if isHeavy then
        Ok(SortResult(SPECIAL, OverweightReason(mass, fmt)))
      else if isBulky then
        Ok(SortResult(SPECIAL, bulkyReason))
      else
        Ok(SortResult(STANDARD, ""))
  }

  /**
   * sort: the classification alone, under the default thresholds
   * (mass 20 kg, volume 1,000,000 cm³, largest dimension 150 cm).
   */
  function Sort(width: real, height: real, length: real, mass: real, fmt: NumberFormat): (r: Result<Classification>)
    ensures r.Err? <==> !AllPositive(width, height, length, mass)
    ensures r.Ok? ==> r.value == Disposition(
      mass >= 20.0,
      width * height * length >= 1000000.0 || MaxDimension(width, height, length) >= 150.0)
  {
    match SortWithReason(width, height, length, mass, DefaultConfig, fmt)
    case Ok(result) => Ok(result.classification)
    case Err(e) => Err(e)
  }
}
