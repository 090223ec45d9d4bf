/**
 * The carbon calculator: text length to tokens, tokens to grams of CO2
 * under a model's energy coefficient and a region's grid intensity, and the
 * derived views of a total (equivalents, averages, yearly projection).
 * The calculator's two pieces of shared state, the current model and the
 * current region, live in the class CarbonCalculator.
 */
module Calculator {

  import opened Wrappers
  import opened Constants
  import opened Models

  /** The running totals of one installation. Timestamps are milliseconds. */
  datatype CarbonMetrics = CarbonMetrics(
    totalTokens: nat,
    totalCO2Grams: real,
    sessionsCount: nat,
    suggestionsAccepted: nat,
    suggestionsShown: nat,
    totalCharacters: nat,
    startDate: int,
    lastUpdateDate: int
  )

  function Max(a: real, b: real): real {
    if a < b then b else a
  }

  // ---------------------------------------------------------------------
  // Tokens and CO2
  // ---------------------------------------------------------------------

  /** Tokens in a text: its length divided by four, rounded up. */
  function EstimateTokens(text: string): (tokens: nat)
    ensures |text| <= CharsPerToken * tokens < |text| + CharsPerToken
  {
    (|text| + CharsPerToken - 1) / CharsPerToken
  }

  lemma EstimateTokensExamples()
    ensures EstimateTokens("") == 0
    ensures EstimateTokens("1234") == 1
    ensures EstimateTokens("12345") == 2
  {
  }

  /** An insertion is taken for an AI suggestion when it is longer than the minimum length. */
  predicate IsLikelyAISuggestion(textLength: nat)
    ensures IsLikelyAISuggestion(textLength) <==> textLength >= MinSuggestionLength + 1
    ensures IsLikelyAISuggestion(textLength) ==> textLength > 2 * CharsPerToken
  {
    textLength > MinSuggestionLength
  }

  /** The threshold is strict: ten characters are not enough, eleven are. */
  lemma SuggestionLengthBoundary()
    ensures !IsLikelyAISuggestion(10) && IsLikelyAISuggestion(11)
    ensures forall n: nat :: IsLikelyAISuggestion(n) <==> n >= 11
  {
  }

  /**
   * Grams of CO2 for some tokens: kWh = tokens / 1000 * coefficient,
   * kg = kWh * intensity, grams = kg * 1000. The two factors of 1000 cancel.
   */
  function Co2Grams(tokens: nat, energyPer1kTokens: real, intensity: real): (grams: real)
    ensures grams == tokens as real * energyPer1kTokens * intensity
  {
    var energyKwh := (tokens as real / 1000.0) * energyPer1kTokens;
    var co2Kg := energyKwh * intensity;
    co2Kg * 1000.0
  }

  /** CO2 is additive in tokens: charging two batches separately or together gives the same grams. */
  lemma Co2Additive(a: nat, b: nat, energyPer1kTokens: real, intensity: real)
    ensures Co2Grams(a + b, energyPer1kTokens, intensity)
            == Co2Grams(a, energyPer1kTokens, intensity) + Co2Grams(b, energyPer1kTokens, intensity)
  {
  }

  /** With non-negative coefficients CO2 is non-negative and grows with the token count. */
  lemma Co2Monotone(a: nat, b: nat, energyPer1kTokens: real, intensity: real)
    requires a <= b
    requires energyPer1kTokens >= 0.0 && intensity >= 0.0
    ensures 0.0 <= Co2Grams(a, energyPer1kTokens, intensity) <= Co2Grams(b, energyPer1kTokens, intensity)
  {
  }

  /** For 1000 tokens the grams are the coefficient times the intensity times 1000, for every model and region. */
  lemma Co2OfThousandTokens(model: AIModel, region: Option<string>)
    ensures Co2Grams(1000, GetModelSpec(model).energyPer1kTokens, CarbonIntensity(region))
            == GetModelSpec(model).energyPer1kTokens * CarbonIntensity(region) * 1000.0
  {
  }

  // ---------------------------------------------------------------------
  // Shared state: current model and current region
  // ---------------------------------------------------------------------

  /** The model in use and its description. */
  datatype CurrentModelInfo = CurrentModelInfo(model: AIModel, description: string)

  /**
   * One entry of the model picker. The entry's label is the field `name`,
   * since `label` is a reserved word in Dafny.
   */
  datatype ModelChoice = ModelChoice(name: string, model: AIModel, description: string, provider: ModelProvider)

  class CarbonCalculator {
    var currentModel: AIModel
    var currentRegion: string

    /** The process starts with the default model and the default region. */
    constructor ()
      ensures currentModel == DefaultModel && currentRegion == DefaultRegion
    {
      currentModel := DefaultModel;
      currentRegion := DefaultRegion;
    }

    method SetModel(model: AIModel)
      modifies this
      ensures currentModel == model
      ensures currentRegion == old(currentRegion)
    {
      currentModel := model;
    }

    /** The current model with the description from its registry entry. */
    method GetCurrentModel() returns (info: CurrentModelInfo)
      ensures info.model == currentModel
      ensures info.description == GetModelSpec(currentModel).description
    {
      var spec := GetModelSpec(currentModel);
      info := CurrentModelInfo(currentModel, spec.description);
    }

    method SetRegion(region: string)
      modifies this
      ensures currentRegion == region
      ensures currentModel == old(currentModel)
    {
      currentRegion := region;
    }

    /** Intensity of the current region, with the global fallback. */
    function CurrentCarbonIntensity(): (intensity: real)
      reads this
      ensures intensity == CarbonIntensity(Some(currentRegion))
      ensures intensity > 0.0
    {
      CarbonIntensity(Some(currentRegion))
    }

    /**
     * Grams of CO2 for tokens under the given model, or the current model when
     * none is given, always at the current region's intensity.
     */
    function CalculateCO2(tokens: nat, model: Option<AIModel>): (grams: real)
      reads this
      ensures grams == tokens as real * GetModelSpec(model.GetOr(currentModel)).energyPer1kTokens
                       * CarbonIntensity(Some(currentRegion))
      ensures grams >= 0.0
    {
      var spec := GetModelSpec(model.GetOr(currentModel));
      Co2Monotone(0, tokens, spec.energyPer1kTokens, CurrentCarbonIntensity());
      Co2Grams(tokens, spec.energyPer1kTokens, CurrentCarbonIntensity())
    }
  }

  /** Energy coefficient of a model. */
  function GetModelEnergy(model: AIModel): (energy: real)
    ensures energy == GetModelSpec(model).energyPer1kTokens
    ensures energy > 0.0
  {
    GetModelSpec(model).energyPer1kTokens
  }

  /** The picker entries: one per registered model, in registration order, labelled from its spec. */
  function GetAvailableModels(): (choices: seq<ModelChoice>)
    ensures |choices| == |AllModelIds|
    ensures forall i :: 0 <= i < |choices| ==> choices[i].model == AllModelIds[i]
    ensures forall c :: c in choices ==>
              var spec := GetModelSpec(c.model);
              c.name == spec.name && c.description == spec.description && c.provider == spec.provider
    ensures forall m :: choices[ModelIndex(m)].model == m
  {
    var specs := AllModels();
    seq(|specs|, i requires 0 <= i < |specs| =>
      ModelChoice(specs[i].name, specs[i].id, specs[i].description, specs[i].provider))
  }

  // ---------------------------------------------------------------------
  // Equivalents
  // ---------------------------------------------------------------------

  /** An amount of CO2 restated in seven everyday equivalents. */
  datatype Comparisons = Comparisons(
    smartphones: real,
    carMiles: real,
    ledBulbHours: real,
    treesDaily: real,
    streamingMinutes: real,
    googleSearches: real,
    laptopMinutes: real
  )

  /** Each equivalent count, multiplied back by its grams per unit, gives the amount. */
  function GetComparisons(co2Grams: real): (c: Comparisons)
    ensures c.smartphones * ComparisonValue(SmartphoneCharge) == co2Grams
    ensures c.carMiles * ComparisonValue(CarMile) == co2Grams
    ensures c.ledBulbHours * ComparisonValue(LedBulbHour) == co2Grams
    ensures c.treesDaily * ComparisonValue(TreeAbsorptionDaily) == co2Grams
    ensures c.streamingMinutes * ComparisonValue(HdStreamingHour) == co2Grams * 60.0
    ensures c.googleSearches * ComparisonValue(GoogleSearch) == co2Grams
    ensures c.laptopMinutes * ComparisonValue(LaptopHour) == co2Grams * 60.0
  {
    Comparisons(
      co2Grams / ComparisonValue(SmartphoneCharge),
      co2Grams / ComparisonValue(CarMile),
      co2Grams / ComparisonValue(LedBulbHour),
      co2Grams / ComparisonValue(TreeAbsorptionDaily),
      co2Grams / ComparisonValue(HdStreamingHour) * 60.0,
      co2Grams / ComparisonValue(GoogleSearch),
      co2Grams / ComparisonValue(LaptopHour) * 60.0
    )
  }

  /** The single equivalent shown for an amount, with the number displayed. */
  datatype PrimaryComparison =
    | PhoneChargePercent(percent: real)
    | PhoneCharges(charges: real)
    | HdStreamingMinutes(minutes: real)
    | CarMiles(miles: real)
    | TreesForADay(trees: real)

  /** Bucket order, smallest amounts first. */
  function PrimaryRank(c: PrimaryComparison): nat {
    match c
    case PhoneChargePercent(_) => 0
    case PhoneCharges(_) => 1
    case HdStreamingMinutes(_) => 2
    case CarMiles(_) => 3
    case TreesForADay(_) => 4
  }

  /** The grams a displayed equivalent stands for. */
  function PrimaryGrams(c: PrimaryComparison): real {
    match c
    case PhoneChargePercent(p) => p / 100.0 * ComparisonValue(SmartphoneCharge)
    case PhoneCharges(n) => n * ComparisonValue(SmartphoneCharge)
    case HdStreamingMinutes(m) => m / 60.0 * ComparisonValue(HdStreamingHour)
    case CarMiles(m) => m * ComparisonValue(CarMile)
    case TreesForADay(t) => t * ComparisonValue(TreeAbsorptionDaily)
  }

  /**
   * The bucket is fixed by the thresholds 1, 10, 100 and 500 grams, each lower
   * bound belonging to the next bucket, and the number shown converts back to
   * exactly the amount.
   */
  function GetPrimaryComparison(co2Grams: real): (c: PrimaryComparison)
    ensures c.PhoneChargePercent? <==> co2Grams < 1.0
    ensures c.PhoneCharges? <==> 1.0 <= co2Grams < 10.0
    ensures c.HdStreamingMinutes? <==> 10.0 <= co2Grams < 100.0
    ensures c.CarMiles? <==> 100.0 <= co2Grams < 500.0
    ensures c.TreesForADay? <==> co2Grams >= 500.0
    ensures PrimaryGrams(c) == co2Grams
  {
    if co2Grams < 1.0 then
      PhoneChargePercent(co2Grams / ComparisonValue(SmartphoneCharge) * 100.0)
    else if co2Grams < 10.0 then
      PhoneCharges(co2Grams / ComparisonValue(SmartphoneCharge))
    else if co2Grams < 100.0 then
      HdStreamingMinutes(co2Grams / ComparisonValue(HdStreamingHour) * 60.0)
    else if co2Grams < 500.0 then
      CarMiles(co2Grams / ComparisonValue(CarMile))
    else
      TreesForADay(co2Grams / ComparisonValue(TreeAbsorptionDaily))
  }

  /** A larger amount never falls in an earlier bucket. */
  lemma PrimaryComparisonMonotone(a: real, b: real)
    requires a <= b
    ensures PrimaryRank(GetPrimaryComparison(a)) <= PrimaryRank(GetPrimaryComparison(b))
  {
  }

  // ---------------------------------------------------------------------
  // Averages and projection
  // ---------------------------------------------------------------------

  datatype Averages = Averages(dailyAverage: real, hourlyAverage: real, perSuggestion: real)

  /** Milliseconds from the start of tracking to now, as a real. */
  function Elapsed(metrics: CarbonMetrics, now: int): real {
    (now - metrics.startDate) as real
  }

  /**
   * A total divided by an elapsed time measured in units, the time counted as
   * at least `least` units.
   */
  function AveragePer(total: real, elapsed: real, unit: real, least: real): (avg: real)
    requires unit > 0.0 && least > 0.0
    ensures elapsed >= least * unit ==> avg * elapsed == total * unit
    ensures elapsed <= least * unit ==> avg * least == total
    ensures total >= 0.0 ==> 0.0 <= avg && avg * least <= total
  {
    var units := Max(least, elapsed / unit);
    var avg := total / units;
    assert avg * units == total;
    assert elapsed >= least * unit ==> units * unit == elapsed;
    assert elapsed >= least * unit ==> avg * elapsed == avg * units * unit;
    assert total >= 0.0 ==> avg >= 0.0;
    assert avg * least <= avg * units || total < 0.0;
    avg
  }

  /**
   * The total spread over the days and hours since the start, counting at
   * least one day and at least a tenth of an hour, and over the accepted
   * suggestions (zero when there are none).
   */
  function CalculateAverages(metrics: CarbonMetrics, now: int): (avg: Averages)
    ensures Elapsed(metrics, now) >= OneDay as real ==>
              avg.dailyAverage * Elapsed(metrics, now) == metrics.totalCO2Grams * OneDay as real
    ensures Elapsed(metrics, now) <= OneDay as real ==> avg.dailyAverage == metrics.totalCO2Grams
    ensures Elapsed(metrics, now) >= OneHour as real / 10.0 ==>
              avg.hourlyAverage * Elapsed(metrics, now) == metrics.totalCO2Grams * OneHour as real
    ensures Elapsed(metrics, now) <= OneHour as real / 10.0 ==>
              avg.hourlyAverage == metrics.totalCO2Grams * 10.0
    ensures metrics.suggestionsAccepted == 0 ==> avg.perSuggestion == 0.0
    ensures metrics.suggestionsAccepted > 0 ==>
              avg.perSuggestion * metrics.suggestionsAccepted as real == metrics.totalCO2Grams
    ensures metrics.totalCO2Grams >= 0.0 ==>
              0.0 <= avg.dailyAverage <= metrics.totalCO2Grams
              && 0.0 <= avg.hourlyAverage <= 10.0 * metrics.totalCO2Grams
  {
    var elapsed := Elapsed(metrics, now);
    var daily := AveragePer(metrics.totalCO2Grams, elapsed, OneDay as real, 1.0);
    var hourly := AveragePer(metrics.totalCO2Grams, elapsed, OneHour as real, 0.1);
    Averages(
      daily,
      hourly,
      if metrics.suggestionsAccepted > 0
      then metrics.totalCO2Grams / metrics.suggestionsAccepted as real
      else 0.0
    )
  }

  /** Two days after the start with 100 g in total, the daily average is 50 g. */
  lemma AveragesTwoDaysExample(metrics: CarbonMetrics, now: int)
    requires metrics.totalCO2Grams == 100.0 && now == metrics.startDate + 2 * OneDay
    ensures CalculateAverages(metrics, now).dailyAverage == 50.0
  {
  }

  /** The yearly equivalent: phone charges below 1 kg, miles driven below 10 kg, trees otherwise. */
  datatype YearlyComparison =
    | YearlyPhoneCharges(charges: real)
    | MilesDriven(miles: real)
    | TreesForAYear(trees: real)

  datatype Projection = Projection(yearlyGrams: real, yearlyKg: real, comparison: YearlyComparison)

  /** The grams a yearly equivalent stands for. */
  function YearlyComparisonGrams(c: YearlyComparison): real {
    match c
    case YearlyPhoneCharges(n) => n * ComparisonValue(SmartphoneCharge)
    case MilesDriven(m) => m * ComparisonValue(CarMile)
    case TreesForAYear(t) => t * ComparisonValue(TreeAbsorptionYearly)
  }

  /**
   * A daily average extended linearly to 365 days, in grams and kilograms,
   * with an equivalent chosen by the kilogram thresholds 1 and 10 that converts
   * back to the yearly grams.
   */
  function ProjectYearly(dailyAverage: real): (p: Projection)
    ensures p.yearlyGrams == 365.0 * dailyAverage
    ensures p.yearlyKg * 1000.0 == p.yearlyGrams
    ensures p.comparison.YearlyPhoneCharges? <==> p.yearlyKg < 1.0
    ensures p.comparison.MilesDriven? <==> 1.0 <= p.yearlyKg < 10.0
    ensures p.comparison.TreesForAYear? <==> p.yearlyKg >= 10.0
    ensures YearlyComparisonGrams(p.comparison) == p.yearlyGrams
  {
    var yearlyGrams := dailyAverage * 365.0;
    var yearlyKg := yearlyGrams / 1000.0;
    var comparison :=
      if yearlyKg < 1.0 then
        YearlyPhoneCharges(yearlyKg * 1000.0 / ComparisonValue(SmartphoneCharge))
      else if yearlyKg < 10.0 then
        MilesDriven(yearlyKg * 1000.0 / ComparisonValue(CarMile))
      else
        TreesForAYear(yearlyKg / (ComparisonValue(TreeAbsorptionYearly) / 1000.0));
    Projection(yearlyGrams, yearlyKg, comparison)
  }

  // ---------------------------------------------------------------------
  // Display value of an amount
  // ---------------------------------------------------------------------

  datatype MassUnit = Grams | Kilograms

  /**
   * The number shown for an amount in the chosen unit (before rounding to two
   * decimals). The code's unit parameter defaults to grams; here every caller
   * names the unit.
   */
  function FormatCO2(co2Grams: real, unit: MassUnit): (shown: real)
    ensures unit == Grams ==> shown == co2Grams
    ensures unit == Kilograms ==> shown * 1000.0 == co2Grams
  {
    if unit == Kilograms then co2Grams / 1000.0 else co2Grams
  }
}
