/**
 * The tracker service: owns the running CarbonMetrics record and the model
 * that new suggestions are charged under, folds accepted insertions into the
 * totals, and restores both from the editor's key-value store on start-up.
 */
module Tracker {

  import opened Wrappers
  import opened Constants
  import opened Models
  import opened Calculator

  // ---------------------------------------------------------------------
  // Text changes and the counting rule
  // ---------------------------------------------------------------------

  /** One content change of an editing event: the inserted text and how many characters it replaced. */
  datatype TextChange = TextChange(text: string, rangeLength: nat)

  /**
   * A change is charged as an accepted suggestion when it inserts more than
   * the minimum length and replaces nothing: the suggestion-length heuristic
   * restricted to pure insertions, so every charged change is worth at least
   * three tokens.
   */
  predicate Counts(change: TextChange)
    ensures Counts(change) <==> IsLikelyAISuggestion(|change.text|) && change.rangeLength == 0
    ensures Counts(change) ==> EstimateTokens(change.text) >= 3
  {
    |change.text| > MinSuggestionLength && change.rangeLength == 0
  }

  lemma CountsExamples()
    ensures Counts(TextChange("abcdefghijk", 0))
    ensures !Counts(TextChange("abcdefghi", 0))
    ensures !Counts(TextChange("abcdefghijklmnopqrst", 5))
  {
  }

  /** The effect of one change on the totals, charged at the given coefficient and intensity. */
  function RecordChange(metrics: CarbonMetrics, change: TextChange, energyPer1kTokens: real,
                        intensity: real, now: int): (r: CarbonMetrics)
    ensures !Counts(change) ==> r == metrics
    ensures Counts(change) ==>
              && r.totalTokens == metrics.totalTokens + EstimateTokens(change.text)
              && r.totalCharacters == metrics.totalCharacters + |change.text|
              && r.suggestionsAccepted == metrics.suggestionsAccepted + 1
              && r.totalCO2Grams == metrics.totalCO2Grams
                                    + Co2Grams(EstimateTokens(change.text), energyPer1kTokens, intensity)
              && r.lastUpdateDate == now
    ensures r.suggestionsShown == metrics.suggestionsShown && r.sessionsCount == metrics.sessionsCount
            && r.startDate == metrics.startDate
  {
    if Counts(change) then
      var tokens := EstimateTokens(change.text);
      metrics.(
        totalTokens := metrics.totalTokens + tokens,
        totalCO2Grams := metrics.totalCO2Grams + Co2Grams(tokens, energyPer1kTokens, intensity),
        totalCharacters := metrics.totalCharacters + |change.text|,
        suggestionsAccepted := metrics.suggestionsAccepted + 1,
        lastUpdateDate := now)
    else
      metrics
  }

  /** The totals after the changes of one event, taken in order. */
  function ApplyChanges(metrics: CarbonMetrics, changes: seq<TextChange>, energyPer1kTokens: real,
                        intensity: real, now: int): (r: CarbonMetrics)
    ensures r.suggestionsShown == metrics.suggestionsShown && r.sessionsCount == metrics.sessionsCount
            && r.startDate == metrics.startDate
    ensures r.totalTokens >= metrics.totalTokens && r.totalCharacters >= metrics.totalCharacters
            && r.suggestionsAccepted <= metrics.suggestionsAccepted + |changes|
    decreases |changes|
  {
    if changes == [] then metrics
    else
      var last := |changes| - 1;
      RecordChange(ApplyChanges(metrics, changes[..last], energyPer1kTokens, intensity, now),
                   changes[last], energyPer1kTokens, intensity, now)
  }

  /** Tokens of the counted changes. */
  function CountedTokens(changes: seq<TextChange>): nat
    decreases |changes|
  {
    if changes == [] then 0
    else
      var last := |changes| - 1;
      CountedTokens(changes[..last])
        + (if Counts(changes[last]) then EstimateTokens(changes[last].text) else 0)
  }

  /** Characters of the counted changes. */
  function CountedCharacters(changes: seq<TextChange>): nat
    decreases |changes|
  {
    if changes == [] then 0
    else
      var last := |changes| - 1;
      CountedCharacters(changes[..last])
        + (if Counts(changes[last]) then |changes[last].text| else 0)
  }

  /** Number of counted changes. */
  function CountedChanges(changes: seq<TextChange>): nat
    decreases |changes|
  {
    if changes == [] then 0
    else
      var last := |changes| - 1;
      CountedChanges(changes[..last]) + (if Counts(changes[last]) then 1 else 0)
  }

  /**
   * After an event each total is its old value plus the sum over the counted
   * changes (the grams being those of all their tokens together), the shown
   * count, the session count and the start date are untouched, and the
   * last-update date moves to now exactly when something was counted.
   */
  lemma {:induction false} ApplyChangesTotals(metrics: CarbonMetrics, changes: seq<TextChange>,
                                              energyPer1kTokens: real, intensity: real, now: int)
    ensures var r := ApplyChanges(metrics, changes, energyPer1kTokens, intensity, now);
      && r.totalTokens == metrics.totalTokens + CountedTokens(changes)
      && r.totalCharacters == metrics.totalCharacters + CountedCharacters(changes)
      && r.suggestionsAccepted == metrics.suggestionsAccepted + CountedChanges(changes)
      && r.totalCO2Grams == metrics.totalCO2Grams + Co2Grams(CountedTokens(changes), energyPer1kTokens, intensity)
      && r.suggestionsShown == metrics.suggestionsShown
      && r.sessionsCount == metrics.sessionsCount
      && r.startDate == metrics.startDate
      && r.lastUpdateDate == if CountedChanges(changes) > 0 then now else metrics.lastUpdateDate
  {
    if changes != [] {
      var last := |changes| - 1;
      var prefix := changes[..last];
      ApplyChangesTotals(metrics, prefix, energyPer1kTokens, intensity, now);
      if Counts(changes[last]) {
        Co2Additive(CountedTokens(prefix), EstimateTokens(changes[last].text), energyPer1kTokens, intensity);
      }
    }
  }

  /** With non-negative coefficients no total ever decreases. */
  lemma ApplyChangesMonotone(metrics: CarbonMetrics, changes: seq<TextChange>,
                             energyPer1kTokens: real, intensity: real, now: int)
    requires energyPer1kTokens >= 0.0 && intensity >= 0.0
    ensures var r := ApplyChanges(metrics, changes, energyPer1kTokens, intensity, now);
      && r.totalTokens >= metrics.totalTokens
      && r.totalCharacters >= metrics.totalCharacters
      && r.suggestionsAccepted >= metrics.suggestionsAccepted
      && r.totalCO2Grams >= metrics.totalCO2Grams
  {
    ApplyChangesTotals(metrics, changes, energyPer1kTokens, intensity, now);
    Co2Monotone(0, CountedTokens(changes), energyPer1kTokens, intensity);
  }

  /** An event whose changes all fail the counting rule leaves the record exactly as it was. */
  lemma {:induction false} UncountedChangesIgnored(metrics: CarbonMetrics, changes: seq<TextChange>,
                                                   energyPer1kTokens: real, intensity: real, now: int)
    requires forall i :: 0 <= i < |changes| ==> !Counts(changes[i])
    ensures ApplyChanges(metrics, changes, energyPer1kTokens, intensity, now) == metrics
  {
    if changes != [] {
      UncountedChangesIgnored(metrics, changes[..|changes| - 1], energyPer1kTokens, intensity, now);
    }
  }

  /** Delivering changes in one event or split over two (at the same time and rates) gives the same record. */
  lemma {:induction false} ApplyChangesConcat(metrics: CarbonMetrics, first: seq<TextChange>, second: seq<TextChange>,
                                              energyPer1kTokens: real, intensity: real, now: int)
    ensures ApplyChanges(ApplyChanges(metrics, first, energyPer1kTokens, intensity, now),
                         second, energyPer1kTokens, intensity, now)
            == ApplyChanges(metrics, first + second, energyPer1kTokens, intensity, now)
  {
    if second == [] {
      assert first + second == first;
    } else {
      var last := |second| - 1;
      ApplyChangesConcat(metrics, first, second[..last], energyPer1kTokens, intensity, now);
      assert (first + second)[..|first + second| - 1] == first + second[..last];
      assert (first + second)[|first + second| - 1] == second[last];
    }
  }

  // ---------------------------------------------------------------------
  // Loading from the store
  // ---------------------------------------------------------------------

  /**
   * A metrics record as read back from the store. Records written before
   * the character count existed lack it; a date may be missing too.
   */
  datatype StoredMetrics = StoredMetrics(
    totalTokens: nat,
    totalCO2Grams: real,
    sessionsCount: nat,
    suggestionsAccepted: nat,
    suggestionsShown: nat,
    totalCharacters: Option<nat>,
    startDate: Option<int>,
    lastUpdateDate: Option<int>
  )

  /** The record of a fresh start: every counter zero, both dates now. */
  function ZeroMetrics(now: int): CarbonMetrics {
    CarbonMetrics(0, 0.0, 0, 0, 0, 0, now, now)
  }

  /** A stored date stands when present and non-zero (zero is falsy); otherwise now is used. */
  function DateOrNow(date: Option<int>, now: int): int {
    if date.Some? && date.value != 0 then date.value else now
  }

  /**
   * Without a stored record: a fresh start. With one: its counters as stored,
   * a missing character count read as zero, and a missing or zero date
   * replaced by now.
   */
  function LoadMetrics(stored: Option<StoredMetrics>, now: int): (metrics: CarbonMetrics)
    ensures stored.None? ==>
              metrics.totalTokens == 0 && metrics.totalCO2Grams == 0.0 && metrics.sessionsCount == 0
              && metrics.suggestionsAccepted == 0 && metrics.suggestionsShown == 0
              && metrics.totalCharacters == 0 && metrics.startDate == now && metrics.lastUpdateDate == now
    ensures stored.Some? ==>
              var s := stored.value;
              metrics.totalTokens == s.totalTokens && metrics.totalCO2Grams == s.totalCO2Grams
              && metrics.sessionsCount == s.sessionsCount
              && metrics.suggestionsAccepted == s.suggestionsAccepted
              && metrics.suggestionsShown == s.suggestionsShown
              && metrics.totalCharacters == (if s.totalCharacters.Some? then s.totalCharacters.value else 0)
              && (s.startDate.Some? && s.startDate.value != 0 ==> metrics.startDate == s.startDate.value)
              && (s.startDate.None? || s.startDate.value == 0 ==> metrics.startDate == now)
              && (s.lastUpdateDate.Some? && s.lastUpdateDate.value != 0 ==> metrics.lastUpdateDate == s.lastUpdateDate.value)
              && (s.lastUpdateDate.None? || s.lastUpdateDate.value == 0 ==> metrics.lastUpdateDate == now)
  {
    match stored
    case None => ZeroMetrics(now)
    case Some(s) =>
      CarbonMetrics(
        s.totalTokens, s.totalCO2Grams, s.sessionsCount, s.suggestionsAccepted, s.suggestionsShown,
        s.totalCharacters.GetOr(0),
        DateOrNow(s.startDate, now),
        DateOrNow(s.lastUpdateDate, now))
  }

  /** The record the service writes to the store: every field present. */
  function SaveMetrics(metrics: CarbonMetrics): (stored: StoredMetrics)
    ensures stored.totalCharacters.Some? && stored.startDate.Some? && stored.lastUpdateDate.Some?
    ensures forall now: int {:trigger LoadMetrics(Some(stored), now)} ::
              var back := LoadMetrics(Some(stored), now);
              && back.totalTokens == metrics.totalTokens && back.totalCO2Grams == metrics.totalCO2Grams
              && back.sessionsCount == metrics.sessionsCount
              && back.suggestionsAccepted == metrics.suggestionsAccepted
              && back.suggestionsShown == metrics.suggestionsShown
              && back.totalCharacters == metrics.totalCharacters
  {
    StoredMetrics(
      metrics.totalTokens, metrics.totalCO2Grams, metrics.sessionsCount,
      metrics.suggestionsAccepted, metrics.suggestionsShown,
      Some(metrics.totalCharacters), Some(metrics.startDate), Some(metrics.lastUpdateDate))
  }

  /** Saving and loading again gives back the same record, whenever its dates are non-zero. */
  lemma SaveLoadRoundTrip(metrics: CarbonMetrics, now: int)
    requires metrics.startDate != 0 && metrics.lastUpdateDate != 0
    ensures LoadMetrics(Some(SaveMetrics(metrics)), now) == metrics
  {
  }

  /**
   * A record from before the character count existed loads with zero
   * characters, its other counters as stored, and now for a missing date.
   */
  lemma LegacyRecordLoads(s: StoredMetrics, now: int)
    requires s.totalCharacters.None?
    ensures LoadMetrics(Some(s), now).totalCharacters == 0
    ensures var m := LoadMetrics(Some(s), now);
      && m.totalTokens == s.totalTokens && m.totalCO2Grams == s.totalCO2Grams
      && m.sessionsCount == s.sessionsCount && m.suggestionsAccepted == s.suggestionsAccepted
      && m.suggestionsShown == s.suggestionsShown
    ensures s.startDate.None? ==> LoadMetrics(Some(s), now).startDate == now
    ensures s.lastUpdateDate.None? ==> LoadMetrics(Some(s), now).lastUpdateDate == now
  {
  }

  /** The stored model preference, or the default model when none was stored. */
  function LoadModelPreference(stored: Option<AIModel>): (model: AIModel)
    ensures stored.Some? ==> model == stored.value
    ensures stored.None? ==> model == DefaultModel
  {
    stored.GetOr(DefaultModel)
  }

  // ---------------------------------------------------------------------
  // The service
  // ---------------------------------------------------------------------

  /** What an export bundles, before it is serialised. */
  datatype ExportData = ExportData(
    metrics: CarbonMetrics,
    averages: Averages,
    comparisons: Comparisons,
    model: CurrentModelInfo,
    exportDate: int
  )

  class TrackerService {
    var metrics: CarbonMetrics
    var currentModel: AIModel
    /** The calculator's shared state: its region prices every change, and model changes are mirrored into it. */
    const calculator: CarbonCalculator

    /** Restores the metrics and the model preference from the store and tells the calculator the model. */
    constructor (calculator: CarbonCalculator, storedMetrics: Option<StoredMetrics>,
                 storedModel: Option<AIModel>, now: int)
      modifies calculator
      ensures this.calculator == calculator
      ensures metrics == LoadMetrics(storedMetrics, now)
      ensures currentModel == LoadModelPreference(storedModel)
      ensures calculator.currentModel == currentModel
      ensures calculator.currentRegion == old(calculator.currentRegion)
    {
      this.calculator := calculator;
      metrics := LoadMetrics(storedMetrics, now);
      var model := LoadModelPreference(storedModel);
      calculator.SetModel(model);
      currentModel := model;
    }

    /**
     * Charges every counted change of an editing event to the totals under the
     * service's model and the calculator's region.
     */
    method TrackTextChange(changes: seq<TextChange>, now: int)
      modifies this
      ensures currentModel == old(currentModel)
      ensures metrics == ApplyChanges(old(metrics), changes, GetModelEnergy(currentModel),
                                      calculator.CurrentCarbonIntensity(), now)
      ensures metrics.totalTokens == old(metrics.totalTokens) + CountedTokens(changes)
      ensures metrics.totalCharacters == old(metrics.totalCharacters) + CountedCharacters(changes)
      ensures metrics.suggestionsAccepted == old(metrics.suggestionsAccepted) + CountedChanges(changes)
      ensures metrics.totalCO2Grams == old(metrics.totalCO2Grams)
                + Co2Grams(CountedTokens(changes), GetModelEnergy(currentModel), calculator.CurrentCarbonIntensity())
      ensures metrics.totalCO2Grams >= old(metrics.totalCO2Grams)
      ensures metrics.suggestionsShown == old(metrics.suggestionsShown)
      ensures metrics.sessionsCount == old(metrics.sessionsCount)
      ensures metrics.startDate == old(metrics.startDate)
    {
      ghost var energy := GetModelEnergy(currentModel);
      ghost var intensity := calculator.CurrentCarbonIntensity();
      for i := 0 to |changes|
        invariant currentModel == old(currentModel)
        invariant metrics == ApplyChanges(old(metrics), changes[..i], energy, intensity, now)
      {
        var change := changes[i];
        if |change.text| > MinSuggestionLength && change.rangeLength == 0 {
          var tokens := EstimateTokens(change.text);
          var co2 := calculator.CalculateCO2(tokens, Some(currentModel));
          metrics := metrics.(totalTokens := metrics.totalTokens + tokens);
          metrics := metrics.(totalCO2Grams := metrics.totalCO2Grams + co2);
          metrics := metrics.(totalCharacters := metrics.totalCharacters + |change.text|);
          metrics := metrics.(suggestionsAccepted := metrics.suggestionsAccepted + 1);
          metrics := metrics.(lastUpdateDate := now);
        }
        assert changes[..i + 1][..i] == changes[..i];
      }
      assert changes[..|changes|] == changes;
      ApplyChangesTotals(old(metrics), changes, energy, intensity, now);
      ApplyChangesMonotone(old(metrics), changes, energy, intensity, now);
    }

    /** Counts one shown suggestion and nothing else. */
    method TrackSuggestionShown()
      modifies this
      ensures metrics == old(metrics).(suggestionsShown := old(metrics.suggestionsShown) + 1)
      ensures currentModel == old(currentModel)
    {
      metrics := metrics.(suggestionsShown := metrics.suggestionsShown + 1);
    }

    /** A copy of the current totals. */
    method GetMetrics() returns (snapshot: CarbonMetrics)
      ensures snapshot == metrics
    {
      snapshot := metrics;
    }

    /** Accepted suggestions as a percentage of shown ones; zero before any was shown. */
    method GetAcceptanceRate() returns (rate: real)
      ensures metrics.suggestionsShown == 0 ==> rate == 0.0
      ensures metrics.suggestionsShown > 0 ==>
                rate * metrics.suggestionsShown as real == metrics.suggestionsAccepted as real * 100.0
      ensures metrics.suggestionsAccepted <= metrics.suggestionsShown ==> 0.0 <= rate <= 100.0
    {
      if metrics.suggestionsShown == 0 {
        return 0.0;
      }
      rate := (metrics.suggestionsAccepted as real / metrics.suggestionsShown as real) * 100.0;
    }

    /** Starts over: every counter, the session count included, back to zero and both dates now. */
    method ResetMetrics(now: int)
      modifies this
      ensures metrics == ZeroMetrics(now)
      ensures metrics.totalTokens == 0 && metrics.totalCO2Grams == 0.0 && metrics.sessionsCount == 0
      ensures metrics.suggestionsAccepted == 0 && metrics.suggestionsShown == 0 && metrics.totalCharacters == 0
      ensures metrics.startDate == now && metrics.lastUpdateDate == now
      ensures currentModel == old(currentModel)
    {
      metrics := CarbonMetrics(
        totalTokens := 0,
        totalCO2Grams := 0.0,
        sessionsCount := 0,
        suggestionsAccepted := 0,
        suggestionsShown := 0,
        totalCharacters := 0,
        startDate := now,
        lastUpdateDate := now);
    }

    /** Counts one more session and nothing else. */
    method IncrementSession()
      modifies this
      ensures metrics == old(metrics).(sessionsCount := old(metrics.sessionsCount) + 1)
      ensures currentModel == old(currentModel)
    {
      metrics := metrics.(sessionsCount := metrics.sessionsCount + 1);
    }

    /**
     * Switches the model later changes are charged under, here and in the
     * calculator; totals already accumulated are not recomputed.
     */
    method SetModel(model: AIModel)
      modifies this, calculator
      ensures currentModel == model && calculator.currentModel == model
      ensures metrics == old(metrics)
      ensures calculator.currentRegion == old(calculator.currentRegion)
    {
      currentModel := model;
      calculator.SetModel(model);
    }

    method GetCurrentModel() returns (model: AIModel)
      ensures model == currentModel
    {
      model := currentModel;
    }

    /** Days since the start of tracking, never below a hundredth of a day. */
    method GetDaysSinceStart(now: int) returns (days: real)
      ensures days >= 0.01
      ensures days * OneDay as real >= Elapsed(metrics, now)
      ensures days == 0.01 || days * OneDay as real == Elapsed(metrics, now)
    {
      var elapsedDays := Elapsed(metrics, now) / OneDay as real;
      days := Max(0.01, elapsedDays);
    }

    /** The data an export writes: the totals, their averages and equivalents, and the calculator's model. */
    method ExportMetrics(now: int) returns (data: ExportData)
      ensures data.metrics == metrics
      ensures data.averages == CalculateAverages(metrics, now)
      ensures data.comparisons == GetComparisons(metrics.totalCO2Grams)
      ensures data.model.model == calculator.currentModel
      ensures data.model.description == GetModelSpec(calculator.currentModel).description
      ensures data.exportDate == now
    {
      var averages := CalculateAverages(metrics, now);
      var comparisons := GetComparisons(metrics.totalCO2Grams);
      var model := calculator.GetCurrentModel();
      data := ExportData(metrics, averages, comparisons, model, now);
    }
  }

  /** After a reset the averages are all zero: nothing is divided by zero. */
  lemma AveragesAfterReset(start: int, now: int)
    ensures CalculateAverages(ZeroMetrics(start), now) == Averages(0.0, 0.0, 0.0)
  {
  }
}
