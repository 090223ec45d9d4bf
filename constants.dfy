/**
 * The static tables of the carbon tracker: grid carbon intensity by region,
 * grams of CO2 per real-world equivalent, token constants, status-colour
 * thresholds and time units, with the lookups that read them.
 */
module Constants {

  import opened Wrappers

  // ---------------------------------------------------------------------
  // Carbon intensity (kg CO2e per kWh)
  // ---------------------------------------------------------------------

  /** Global average carbon intensity for cloud data centres. */
  const CarbonIntensityGlobal: real := 0.429

  /** Carbon intensity of each recognised region code. */
  const CarbonIntensityByRegion: map<string, real> := map[
    "US_EAST" := 0.385,
    "US_WEST" := 0.313,
    "EU_WEST" := 0.295,
    "EU_NORTH" := 0.008,
    "ASIA_PACIFIC" := 0.581,
    "GLOBAL" := 0.429
  ]

  /** The region the calculator starts with. */
  const DefaultRegion: string := "GLOBAL"

  /**
   * Intensity of a region: the table value when the code is present,
   * non-empty and a key of the table, otherwise the global average.
   */
  function CarbonIntensity(region: Option<string>): (r: real)
    ensures region.Some? && region.value in CarbonIntensityByRegion ==>
              r == CarbonIntensityByRegion[region.value]
    ensures region.None? || region.value !in CarbonIntensityByRegion ==>
              r == CarbonIntensityGlobal
    ensures r > 0.0
  {
    if region.Some? && region.value != "" && region.value in CarbonIntensityByRegion then
      RegionIntensitiesPositive();
      CarbonIntensityByRegion[region.value]
    else
      CarbonIntensityGlobal
  }

  /** Every regional intensity is strictly positive. */
  lemma RegionIntensitiesPositive()
    ensures forall code :: code in CarbonIntensityByRegion ==> CarbonIntensityByRegion[code] > 0.0
  {
  }

  /** The GLOBAL entry agrees with the fallback, so naming it or naming nothing is the same. */
  lemma GlobalRegionIsFallback()
    ensures CarbonIntensity(Some("GLOBAL")) == CarbonIntensity(None)
    ensures CarbonIntensity(Some(DefaultRegion)) == CarbonIntensityGlobal
  {
  }

  /** An unrecognised code falls back to the global value. */
  lemma UnknownRegionFallsBack(code: string)
    requires code !in CarbonIntensityByRegion
    ensures CarbonIntensity(Some(code)) == CarbonIntensity(None) == 0.429
  {
  }

  // ---------------------------------------------------------------------
  // Token constants
  // ---------------------------------------------------------------------

  /** About four characters make one token. */
  const CharsPerToken: nat := 4
  /** An insertion must be longer than this to count as an AI suggestion. */
  const MinSuggestionLength: nat := 10
  const AverageCodeSuggestionTokens: nat := 75

  // ---------------------------------------------------------------------
  // Real-world equivalents (grams of CO2 per unit)
  // ---------------------------------------------------------------------

  datatype ComparisonKind =
    | SmartphoneCharge
    | CarMile
    | LedBulbHour
    | IncandescentBulbHour
    | HdStreamingHour
    | UhdStreamingHour
    | TreeAbsorptionDaily
    | TreeAbsorptionYearly
    | GoogleSearch
    | EmailWithAttachment
    | LaptopHour
    | BoilWaterLiter
    | CoffeeCup

  /** Grams of CO2 that one unit of the equivalent stands for; never zero, so it is a safe divisor. */
  function ComparisonValue(kind: ComparisonKind): (grams: real)
    ensures grams > 0.0
  {
    match kind
    case SmartphoneCharge => 8.0
    case CarMile => 404.0
    case LedBulbHour => 4.3
    case IncandescentBulbHour => 25.7
    case HdStreamingHour => 55.0
    case UhdStreamingHour => 100.0
    case TreeAbsorptionDaily => 57.5
    case TreeAbsorptionYearly => 21000.0
    case GoogleSearch => 0.2
    case EmailWithAttachment => 50.0
    case LaptopHour => 21.5
    case BoilWaterLiter => 70.0
    case CoffeeCup => 21.0
  }

  // ---------------------------------------------------------------------
  // Status colour
  // ---------------------------------------------------------------------

  const LowThreshold: real := 10.0
  const MediumThreshold: real := 50.0
  const FewSuggestions: nat := 10
  const ManySuggestions: nat := 100
  const DailyTargetLow: real := 20.0
  const DailyTargetMedium: real := 50.0
  const DailyTargetHigh: real := 100.0

  datatype Color = Green | Yellow | Red

  /** Severity order of the colours: green < yellow < red. */
  function ColorRank(c: Color): nat {
    match c
    case Green => 0
    case Yellow => 1
    case Red => 2
  }

  /** Green below the low threshold, red from the medium threshold on, yellow between. */
  function UIColor(co2Grams: real): (c: Color)
    ensures c == Green <==> co2Grams < LowThreshold
    ensures c == Yellow <==> LowThreshold <= co2Grams < MediumThreshold
    ensures c == Red <==> co2Grams >= MediumThreshold
  {
    if co2Grams < LowThreshold then Green
    else if co2Grams < MediumThreshold then Yellow
    else Red
  }

  /** A larger amount never gets a less severe colour. */
  lemma UIColorMonotone(a: real, b: real)
    requires a <= b
    ensures ColorRank(UIColor(a)) <= ColorRank(UIColor(b))
  {
  }

  /** The boundary cases: the lower bound of each band is inclusive. */
  lemma UIColorBoundaries()
    ensures UIColor(9.0) == Green && UIColor(10.0) == Yellow
    ensures UIColor(49.9) == Yellow && UIColor(50.0) == Red
  {
  }

  const SeedlingIcon: string := "\U{1F331}"
  const YellowCircleIcon: string := "\U{1F7E1}"
  const RedCircleIcon: string := "\U{1F534}"

  /** The status-bar icon of each colour. */
  function ColorEmoji(c: Color): string {
    match c
    case Green => SeedlingIcon
    case Yellow => YellowCircleIcon
    case Red => RedCircleIcon
  }

  /** The icon for an amount: one of three, and a different one for each band. */
  function UIEmoji(co2Grams: real): (icon: string)
    ensures icon == SeedlingIcon <==> co2Grams < LowThreshold
    ensures icon == YellowCircleIcon <==> LowThreshold <= co2Grams < MediumThreshold
    ensures icon == RedCircleIcon <==> co2Grams >= MediumThreshold
  {
    ColorEmojiInjective();
    ColorEmoji(UIColor(co2Grams))
  }

  /** The three colours have three different icons. */
  lemma ColorEmojiInjective()
    ensures forall c, d :: ColorEmoji(c) == ColorEmoji(d) ==> c == d
  {
  }

  // ---------------------------------------------------------------------
  // Time units (milliseconds) and display precision
  // ---------------------------------------------------------------------

  const OneHour: nat := 60 * 60 * 1000
  const OneDay: nat := 24 * 60 * 60 * 1000
  const OneWeek: nat := 7 * 24 * 60 * 60 * 1000
  const OneYear: nat := 365 * 24 * 60 * 60 * 1000

  lemma TimeUnitsConsistent()
    ensures OneDay == 24 * OneHour
    ensures OneWeek == 7 * OneDay
    ensures OneYear == 365 * OneDay
  {
  }

  const Co2GramsDecimals: nat := 2
  const Co2KgDecimals: nat := 2
  const TokensDecimals: nat := 0
  const PercentagesDecimals: nat := 1
  const ComparisonsDecimals: nat := 1
}
