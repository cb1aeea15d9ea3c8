/**
  The `economic_indicators` fact table: one row per loop index 1..n,
  referencing a state id drawn uniformly from the state table's id range, a
  quarter label such as "2021-Q3", and indicators whose ranges depend on a
  region drawn on its own, independently of the referenced state's region.
  Growth and unemployment are scaled by a drawn factor in 2020 and 2021.
 */
module Economic {
  import opened ReferenceData
  import opened Text
  import opened Values

  const Years: seq<int> := [2019, 2020, 2021, 2022, 2023, 2024]
  const Quarters: seq<string> := ["Q1", "Q2", "Q3", "Q4"]

  datatype EconomicDraw = EconomicDraw(
    stateId: int,
    year: int,
    quarterIndex: nat,
    region: Region,
    gdpGrowth: real,
    inflation: real,
    unemployment: real,
    perCapita: real,
    educationSpending: real,
    literacy: real,
    covidGdpFactor: real,
    covidUnemploymentFactor: real)

  datatype EconomicRow = EconomicRow(
    indicatorId: int,
    stateId: int,
    quarter: string,
    gdpGrowthRate: real,
    inflationRate: real,
    unemploymentRate: real,
    educationSpendingPercent: real,
    perCapitaIncome: real,
    literacyRate: real)

  /** The region-dependent ranges: West and South, North, and the others. */
  datatype Indicators = Indicators(
    gdpLow: real, gdpHigh: real,
    inflationLow: real, inflationHigh: real,
    unemploymentLow: real, unemploymentHigh: real,
    perCapitaLow: real, perCapitaHigh: real,
    spendingLow: real, spendingHigh: real,
    literacyLow: real, literacyHigh: real)

  function IndicatorsOf(r: Region): Indicators
  {
    if r in {West, South} then
      Indicators(6.5, 9.5, 3.0, 6.2, 2.0, 5.5, 220000.0, 450000.0, 4.2, 7.5, 82.0, 96.0)
    else if r == North then
      Indicators(5.5, 8.0, 3.2, 6.8, 2.8, 6.5, 190000.0, 350000.0, 3.8, 6.2, 76.0, 92.0)
    else
      Indicators(3.5, 7.0, 3.8, 7.8, 3.5, 11.0, 130000.0, 280000.0, 2.8, 5.5, 62.0, 85.0)
  }

  /** The COVID scaling ranges of growth and unemployment in 2020 and 2021. */
  predicate CovidFactorsInRange(year: int, gdpFactor: real, unemploymentFactor: real)
  {
    && (year == 2020 ==> 0.4 <= gdpFactor <= 0.7 && 1.3 <= unemploymentFactor <= 1.6)
    && (year == 2021 ==> 0.7 <= gdpFactor <= 0.9 && 1.1 <= unemploymentFactor <= 1.3)
  }

  predicate ValidEconomicDraw(d: EconomicDraw, stateCount: nat)
  {
    var p := IndicatorsOf(d.region);
    && 1 <= d.stateId <= stateCount
    && d.year in Years
    && d.quarterIndex < |Quarters|
    && p.gdpLow <= d.gdpGrowth <= p.gdpHigh
    && p.inflationLow <= d.inflation <= p.inflationHigh
    && p.unemploymentLow <= d.unemployment <= p.unemploymentHigh
    && p.perCapitaLow <= d.perCapita <= p.perCapitaHigh
    && p.spendingLow <= d.educationSpending <= p.spendingHigh
    && p.literacyLow <= d.literacy <= p.literacyHigh
    && CovidFactorsInRange(d.year, d.covidGdpFactor, d.covidUnemploymentFactor)
  }

  /** `f"{year}-{quarter}"` */
  function QuarterString(year: nat, quarterIndex: nat): string
    requires quarterIndex < |Quarters|
  {
    DecimalString(year) + "-" + Quarters[quarterIndex]
  }

  /** Reads a label "YYYY-Qn" back into its year and quarter index. */
  function ParseQuarter(s: string): Option<(int, nat)>
  {
    if |s| == 7 && AllDigits(s[..4]) && s[4] == '-' && s[5] == 'Q' && '1' <= s[6] <= '4'
    then Some((DecimalValue(s[..4]), (s[6] as int - '1' as int) as nat))
    else None
  }

  function EconomicRowOf(indicatorId: int, d: EconomicDraw): EconomicRow
    requires d.year >= 0 && d.quarterIndex < |Quarters|
  {
    var gdp := if d.year in {2020, 2021} then d.gdpGrowth * d.covidGdpFactor else d.gdpGrowth;
    var unemployment :=
      if d.year in {2020, 2021} then d.unemployment * d.covidUnemploymentFactor else d.unemployment;
    EconomicRow(indicatorId, d.stateId, QuarterString(d.year, d.quarterIndex),
                gdp, d.inflation, unemployment, d.educationSpending, d.perCapita, d.literacy)
  }

  /** One row per index `i` in 1..n, with `indicator_id` i. */
  method CreateEconomicIndicators(n: nat, draws: seq<EconomicDraw>) returns (rows: seq<EconomicRow>)
    requires |draws| == n
    requires forall k :: 0 <= k < n ==> draws[k].year >= 0 && draws[k].quarterIndex < |Quarters|
    ensures |rows| == n
    ensures forall k :: 0 <= k < n ==> rows[k] == EconomicRowOf(k + 1, draws[k])
    ensures forall k :: 0 <= k < n ==> rows[k].indicatorId == k + 1
  {
    rows := [];
    for i := 1 to n + 1
      invariant |rows| == i - 1
      invariant forall k :: 0 <= k < |rows| ==> rows[k] == EconomicRowOf(k + 1, draws[k])
    {
      rows := rows + [EconomicRowOf(i, draws[i - 1])];
    }
  }

  /** A quarter label of the generated years is seven characters long and
      reads back as its year and quarter. */
  lemma QuarterRoundTrip(year: nat, quarterIndex: nat)
    requires 2019 <= year <= 2024 && quarterIndex < |Quarters|
    ensures |QuarterString(year, quarterIndex)| == 7
    ensures ParseQuarter(QuarterString(year, quarterIndex)) == Some((year, quarterIndex))
  {
    var s := QuarterString(year, quarterIndex);
    assert Pow10(3) == 1000 && Pow10(4) == 10000;
    DecimalLength(year, 4);
    DecimalRoundTrip(year);
    assert s[..4] == DecimalString(year);
  }

  /** Against the fixed state list, every referenced state id names one of
      its 28 states, and the quarter is a well-formed label of 2019..2024. */
  lemma EconomicRowFacts(indicatorId: int, d: EconomicDraw)
    requires ValidEconomicDraw(d, |IndianStates|)
    ensures var r := EconomicRowOf(indicatorId, d);
      && 1 <= r.stateId <= 28
      && |r.quarter| == 7
      && ParseQuarter(r.quarter) == Some((d.year, d.quarterIndex))
  {
    TableSizes();
    QuarterRoundTrip(d.year, d.quarterIndex);
  }

  /** The COVID years lower growth and raise unemployment relative to the
      drawn regional values; other years keep them. */
  lemma CovidImpact(indicatorId: int, d: EconomicDraw, stateCount: nat)
    requires ValidEconomicDraw(d, stateCount)
    ensures var r := EconomicRowOf(indicatorId, d);
      && (d.year in {2020, 2021} ==>
            r.gdpGrowthRate < d.gdpGrowth && r.unemploymentRate > d.unemployment)
      && (d.year !in {2020, 2021} ==>
            r.gdpGrowthRate == d.gdpGrowth && r.unemploymentRate == d.unemployment)
  {
    var r := EconomicRowOf(indicatorId, d);
    if d.year in {2020, 2021} {
      MulMonotone(d.gdpGrowth, d.gdpGrowth, d.covidGdpFactor, 0.9);
      MulMonotone(d.unemployment, d.unemployment, 1.1, d.covidUnemploymentFactor);
    }
  }
}
