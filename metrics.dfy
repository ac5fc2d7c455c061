/** The ROI formula chain: from a channel list, a campaign count and a
    variation count to the nine derived figures the calculator shows.
    Integer figures are `int`; the figures the source computes with true
    division are exact `real`s. */
module Metrics {
  import opened Channels

  const HOURS_PER_VARIATION: int := 24
  const HOURS_PER_FORMAT: int := 4
  const HOURLY_RATE: int := 50
  const PLATFORM_COSTS: int := 7500
  /** Minutes the solution spends per format asset. */
  const SOLUTION_MINUTES_PER_ASSET: real := 2.0
  /** Hours the solution needs to create all assets, spread over the formats. */
  const SOLUTION_SETUP_HOURS: int := 4

  /** The result record. */
  datatype Metrics = Metrics(
    totalVariations: int,
    totalFormats: int,
    totalHours: int,
    totalCost: int,
    hoursSaved: real,
    moneySaved: int,
    currentMinutesPerAsset: real,
    newMinutesPerAsset: real,
    hoursWithSolution: real)

  /** The one failure of the formula chain: a per-asset division by a zero
      format count. */
  datatype CalcError = ZeroDivision

  datatype Result<T> = Ok(value: T) | Err(error: CalcError)

  /** The calculation. It fails exactly when there is nothing to divide by:
      no channel, no campaign or no variation. */
  function CalculateMetrics(channels: seq<Channel>, campaigns: int, variations: int): (r: Result<Metrics>)
    ensures r.Err? <==> (channels == [] || campaigns == 0 || variations == 0)
  {
    var totalVariations := campaigns * variations;
    var totalFormatsPerCampaign := FormatsPerCampaign(channels);
    var totalFormats := totalVariations * totalFormatsPerCampaign;
    var totalHours := totalVariations * HOURS_PER_VARIATION + totalFormats * HOURS_PER_FORMAT;
    var totalCost := totalHours * HOURLY_RATE;
    var hoursWithSolution := totalFormats as real * (SOLUTION_MINUTES_PER_ASSET / 60.0);
    var hoursSaved := totalHours as real - hoursWithSolution;
    var moneySaved := totalCost - PLATFORM_COSTS;
    if totalFormats == 0 then
      Err(ZeroDivision)
    else
      var currentMinutesPerAsset := (totalHours * 60) as real / totalFormats as real;
      var newMinutesPerAsset := (SOLUTION_SETUP_HOURS * 60) as real / totalFormats as real;
      Ok(Metrics(totalVariations, totalFormats, totalHours, totalCost, hoursSaved,
                 moneySaved, currentMinutesPerAsset, newMinutesPerAsset, hoursWithSolution))
  }

  /** Inputs the calculator is reached with: a non-empty channel list and
      counts of at least one. */
  predicate ValidInput(channels: seq<Channel>, campaigns: int, variations: int)
  {
    channels != [] && campaigns >= 1 && variations >= 1
  }

  /** The integer figures in closed form, in terms of n = campaigns *
      variations and w = the formats per campaign of the channel list. */
  lemma CountsClosedForm(channels: seq<Channel>, campaigns: int, variations: int)
    requires CalculateMetrics(channels, campaigns, variations).Ok?
    ensures var m := CalculateMetrics(channels, campaigns, variations).value;
            var n := campaigns * variations;
            var w := FormatsPerCampaign(channels);
            && m.totalVariations == n
            && m.totalFormats == n * w
            && m.totalHours == n * (24 + 4 * w)
            && m.totalCost == n * (1200 + 200 * w)
            && m.moneySaved == n * (1200 + 200 * w) - 7500
  {
    var m := CalculateMetrics(channels, campaigns, variations).value;
    var n := campaigns * variations;
    var w := FormatsPerCampaign(channels);
    assert m.totalHours == n * 24 + (n * w) * 4;
    Distribute(n, w, 24, 4);
    Distribute(n, w, 1200, 200);
  }

  /** The solution's hours: two minutes for each of the n * w formats, and
      the hours saved against the current process. */
  lemma SolutionHoursClosedForm(channels: seq<Channel>, campaigns: int, variations: int)
    requires CalculateMetrics(channels, campaigns, variations).Ok?
    ensures var m := CalculateMetrics(channels, campaigns, variations).value;
            && m.hoursWithSolution == m.totalFormats as real / 30.0
            && m.hoursSaved == m.totalHours as real - m.totalFormats as real / 30.0
  {
  }

  /** The minutes per asset in closed form: the current figure is
      240 + 1440 / w whatever the counts, the new one is the 240 minutes of
      setup spread over the n * w formats. */
  lemma MinutesClosedForm(channels: seq<Channel>, campaigns: int, variations: int)
    requires CalculateMetrics(channels, campaigns, variations).Ok?
    ensures var m := CalculateMetrics(channels, campaigns, variations).value;
            var n := campaigns * variations;
            var w := FormatsPerCampaign(channels);
            && m.currentMinutesPerAsset == 240.0 + 1440.0 / w as real
            && m.newMinutesPerAsset == 240.0 / (n * w) as real
  {
    var m := CalculateMetrics(channels, campaigns, variations).value;
    CountsClosedForm(channels, campaigns, variations);
    assert m.currentMinutesPerAsset == (m.totalHours * 60) as real / m.totalFormats as real;
    CurrentMinutesAlgebra(m.totalHours, campaigns * variations, FormatsPerCampaign(channels));
  }

  /** (h * 60) / (n * w) == 240 + 1440 / w when h == n * (24 + 4 * w). */
  lemma CurrentMinutesAlgebra(h: int, n: int, w: int)
    requires h == n * (24 + 4 * w) && n != 0 && w != 0
    ensures (h * 60) as real / (n * w) as real == 240.0 + 1440.0 / w as real
  {
    var f := n * w;
    assert h * 60 == f * 240 + n * 1440 by { Distribute(n, w, 1440, 240); }
    assert (h * 60) as real == f as real * 240.0 + n as real * 1440.0;
    DivideOut(f, 240.0, 1440.0, n, w);
  }

  /** n * (a + b * w) expanded, with the product n * w kept together. */
  lemma Distribute(n: int, w: int, a: int, b: int)
    ensures n * (a + b * w) == n * a + (n * w) * b
  {
  }

  /** (f * a + n * b) / f == a + b / w when f == n * w. */
  lemma DivideOut(f: int, a: real, b: real, n: int, w: int)
    requires f == n * w && n != 0 && w != 0
    ensures (f as real * a + n as real * b) / f as real == a + b / w as real
  {
    assert f as real == n as real * w as real;
    calc {
      (f as real * a + n as real * b) / f as real;
      f as real * a / f as real + n as real * b / (n as real * w as real);
      a + b / w as real;
    }
  }

  /** On the inputs the calculator is called with, the format count is at
      least three, so both per-asset divisions are defined. */
  lemma SafeDivision(channels: seq<Channel>, campaigns: int, variations: int)
    requires ValidInput(channels, campaigns, variations)
    ensures CalculateMetrics(channels, campaigns, variations).Ok?
    ensures CalculateMetrics(channels, campaigns, variations).value.totalFormats
            >= 3 * |channels| * campaigns * variations >= 3
  {
    var n := campaigns * variations;
    var w := FormatsPerCampaign(channels);
    var k := 3 * |channels|;
    ProductMonotone(1, 1, campaigns, variations);
    ProductMonotone(n, k, n, w);
    ProductMonotone(1, 3, n, k);
    assert k * campaigns * variations == n * k;
  }

  /** Holding the channels fixed, more campaigns or more variations never
      lower the format count, the hours or the cost. */
  lemma Monotone(channels: seq<Channel>, campaigns: int, variations: int, campaigns': int, variations': int)
    requires ValidInput(channels, campaigns, variations)
    requires campaigns <= campaigns' && variations <= variations'
    ensures CalculateMetrics(channels, campaigns, variations).Ok?
    ensures CalculateMetrics(channels, campaigns', variations').Ok?
    ensures var m := CalculateMetrics(channels, campaigns, variations).value;
            var m' := CalculateMetrics(channels, campaigns', variations').value;
            && m.totalVariations <= m'.totalVariations
            && m.totalFormats <= m'.totalFormats
            && m.totalHours <= m'.totalHours
            && m.totalCost <= m'.totalCost
  {
    var w := FormatsPerCampaign(channels);
    var n, n' := campaigns * variations, campaigns' * variations';
    ProductMonotone(campaigns, variations, campaigns', variations');
    ProductMonotone(n, w, n', w);
    ProductMonotone(n, 24 + 4 * w, n', 24 + 4 * w);
    ProductMonotone(n, 1200 + 200 * w, n', 1200 + 200 * w);
    CountsClosedForm(channels, campaigns, variations);
    CountsClosedForm(channels, campaigns', variations');
  }

  lemma ProductMonotone(a: int, b: int, a': int, b': int)
    requires 0 <= a <= a' && 0 <= b <= b'
    ensures a * b <= a' * b'
  {
    assert a * b <= a' * b by { assert (a' - a) * b >= 0; }
    assert a' * b <= a' * b' by { assert a' * (b' - b) >= 0; }
  }

  /** The current minutes per asset depend on the channels alone: the
      campaign and variation counts cancel out. */
  lemma CurrentMinutesIndependentOfCounts(channels: seq<Channel>, campaigns: int, variations: int,
                                          campaigns': int, variations': int)
    requires CalculateMetrics(channels, campaigns, variations).Ok?
    requires CalculateMetrics(channels, campaigns', variations').Ok?
    ensures CalculateMetrics(channels, campaigns, variations).value.currentMinutesPerAsset
            == CalculateMetrics(channels, campaigns', variations').value.currentMinutesPerAsset
  {
    MinutesClosedForm(channels, campaigns, variations);
    MinutesClosedForm(channels, campaigns', variations');
  }

  /** On the calculator's inputs the current process takes more minutes per
      asset than the solution, and both are positive. */
  lemma CurrentSlowerThanNew(channels: seq<Channel>, campaigns: int, variations: int)
    requires ValidInput(channels, campaigns, variations)
    ensures CalculateMetrics(channels, campaigns, variations).Ok?
    ensures var m := CalculateMetrics(channels, campaigns, variations).value;
            m.currentMinutesPerAsset > m.newMinutesPerAsset > 0.0
  {
    SafeDivision(channels, campaigns, variations);
    MinutesClosedForm(channels, campaigns, variations);
    var n := campaigns * variations;
    var w := FormatsPerCampaign(channels);
    assert n * w >= 1;
    assert 240.0 / (n * w) as real <= 240.0;
    assert 1440.0 / w as real > 0.0;
  }

  /** Nothing keeps the money saved from being negative: one TikTok campaign
      with one variation costs 1800, below the 7500 platform fee. */
  lemma MoneySavedCanBeNegative()
    ensures CalculateMetrics([TikTok], 1, 1).Ok?
    ensures CalculateMetrics([TikTok], 1, 1).value.moneySaved == -5700
  {
  }

  /** Meta only, two campaigns, three variations. */
  lemma MetaScenario()
    ensures CalculateMetrics([Meta], 2, 3)
            == Ok(Metrics(6, 24, 240, 12000, 239.2, 4500, 600.0, 10.0, 0.8))
  {
  }

  /** Display and Meta, one campaign, one variation. */
  lemma DisplayMetaScenario()
    ensures var r := CalculateMetrics([Meta, Display], 1, 1);
            && r.Ok?
            && r.value.totalVariations == 1
            && r.value.totalFormats == 9
            && r.value.totalHours == 60
            && r.value.totalCost == 3000
  {
  }
}
