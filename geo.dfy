/**
  The `geographic_demographics` fact table: one row per loop index 1..n,
  referencing a city id drawn uniformly from the city table's id range. The
  tier that sets the demographic ranges is drawn on its own, independently of
  the referenced city's tier.
 */
module Geo {
  import opened ReferenceData
  import opened Values

  /** Everything the generator draws for one row. `youthShare` and
      `enrollmentShare` are the two `uniform` factors of the population
      sub-bands. */
  datatype GeoDraw = GeoDraw(
    cityId: int,
    tier: Tier,
    populationTotal: int,
    averageIncome: real,
    unemployment: real,
    literacy: real,
    colleges: int,
    youthShare: real,
    enrollmentShare: real)

  datatype GeoRow = GeoRow(
    geoId: int,
    cityId: int,
    populationTotal: int,
    population18To35: int,
    higherEducationEnrollment: int,
    averageHouseholdIncome: real,
    unemploymentRate: real,
    literacyRate: real,
    numberOfColleges: int)

  /** The tier-dependent ranges. */
  datatype Demographics = Demographics(
    populationLow: int, populationHigh: int,
    incomeLow: real, incomeHigh: real,
    unemploymentLow: real, unemploymentHigh: real,
    literacyLow: real, literacyHigh: real,
    collegesLow: int, collegesHigh: int)

  function DemographicsOf(t: Tier): Demographics
  {
    match t
    case Tier1 => Demographics(2000000, 15000000, 900000.0, 1800000.0, 2.5, 5.5, 85.0, 96.0, 60, 200)
    case Tier2 => Demographics(400000, 4000000, 550000.0, 1100000.0, 3.5, 7.5, 75.0, 90.0, 25, 80)
    case Tier3 => Demographics(80000, 1200000, 350000.0, 750000.0, 4.5, 12.0, 65.0, 82.0, 8, 35)
  }

  predicate ValidGeoDraw(d: GeoDraw, cityCount: nat)
  {
    var p := DemographicsOf(d.tier);
    && 1 <= d.cityId <= cityCount
    && p.populationLow <= d.populationTotal <= p.populationHigh
    && p.incomeLow <= d.averageIncome <= p.incomeHigh
    && p.unemploymentLow <= d.unemployment <= p.unemploymentHigh
    && p.literacyLow <= d.literacy <= p.literacyHigh
    && p.collegesLow <= d.colleges <= p.collegesHigh
    && 0.24 <= d.youthShare <= 0.36
    && 0.12 <= d.enrollmentShare <= 0.28
  }

  /** `int(x)` of a non-negative real. */
  function Truncate(x: real): int
  {
    x.Floor
  }

  function GeoRowOf(geoId: int, d: GeoDraw): GeoRow
  {
    var youth := Truncate(d.populationTotal as real * d.youthShare);
    var enrollment := Truncate(youth as real * d.enrollmentShare);
    GeoRow(geoId, d.cityId, d.populationTotal, youth, enrollment,
           d.averageIncome, d.unemployment, d.literacy, d.colleges)
  }

  /** One row per index `i` in 1..n, with `geo_id` i. */
  method CreateGeographicDemographics(n: nat, draws: seq<GeoDraw>) returns (rows: seq<GeoRow>)
    requires |draws| == n
    ensures |rows| == n
    ensures forall k :: 0 <= k < n ==> rows[k] == GeoRowOf(k + 1, draws[k])
    ensures forall k :: 0 <= k < n ==> rows[k].geoId == k + 1
  {
    rows := [];
    for i := 1 to n + 1
      invariant |rows| == i - 1
      invariant forall k :: 0 <= k < |rows| ==> rows[k] == GeoRowOf(k + 1, draws[k])
    {
      rows := rows + [GeoRowOf(i, draws[i - 1])];
    }
  }

  /** Truncating a share (between 0 and 1) of a non-negative count gives a
      count between 0 and the whole. */
  lemma TruncatedShare(whole: int, share: real)
    requires whole >= 0 && 0.0 <= share <= 1.0
    ensures 0 <= Truncate(whole as real * share) <= whole
  {
    MulMonotone(0.0, whole as real, 0.0, share);
    MulMonotone(whole as real, whole as real, share, 1.0);
  }

  /** The nested population bands: the 18-35 population is part of the total,
      and the enrolled population part of the 18-35 population. */
  lemma PopulationBands(geoId: int, d: GeoDraw, cityCount: nat)
    requires ValidGeoDraw(d, cityCount)
    ensures var r := GeoRowOf(geoId, d);
      && 0 <= r.population18To35 <= r.populationTotal
      && 0 <= r.higherEducationEnrollment <= r.population18To35
  {
    var r := GeoRowOf(geoId, d);
    TruncatedShare(d.populationTotal, d.youthShare);
    TruncatedShare(r.population18To35, d.enrollmentShare);
  }

  /** Against the fixed city list, every referenced city id names one of its
      252 cities. */
  lemma GeoCityListed(geoId: int, d: GeoDraw)
    requires ValidGeoDraw(d, |IndianCities|)
    ensures var r := GeoRowOf(geoId, d);
      1 <= r.cityId <= 252 && 0 <= r.cityId - 1 < |IndianCities|
  {
    TableSizes();
  }
}
