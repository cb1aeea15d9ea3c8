/**
  The `institutions` fact table. Like the customers, institutions are built
  in batches over a sampled city per row; the draws are inputs. The name is
  composed from a prefix, a specialisation and a type drawn from fixed lists,
  followed by the city name; the numeric parameters depend on the city tier.
 */
module Institutions {
  import opened Batching
  import opened ReferenceData
  import opened Dimensions
  import opened Text
  import opened Values

  datatype Accreditation = NaacAPlus | NaacA | NaacBPlus | NaacB | NbaAccredited | UgcRecognized

  const InstitutionTypes: seq<string> := ["University", "College", "Institute", "Academy"]
  const Prefixes: seq<string> := ["National", "Indian", "Government", "State", "Regional", "Central"]
  const Specializations: seq<string> :=
    ["Engineering", "Medical", "Management", "Arts & Science", "Technology", "Commerce", "Law"]

  const OtherTableRecords: nat := 350000

  /** Everything the generator draws for one institution; `placementRoll` is
      the `random.random()` deciding whether the placement rate is kept. */
  datatype InstitutionDraw = InstitutionDraw(
    cityIndex: nat,
    prefixIndex: nat,
    specializationIndex: nat,
    typeIndex: nat,
    students: int,
    fees: real,
    placement: real,
    establishment: int,
    placementRoll: real,
    accreditation: Accreditation)

  datatype Institution = Institution(
    institutionId: int,
    institutionName: string,
    cityId: int,
    institutionType: string,
    establishmentYear: int,
    totalStudents: int,
    averageCourseFee: real,
    placementRate: Option<real>,
    accreditation: Accreditation)

  /** The tier-dependent ranges: students, fees, placement rate, founding year. */
  datatype TierParameters = TierParameters(
    studentsLow: int, studentsHigh: int,
    feesLow: real, feesHigh: real,
    placementLow: real, placementHigh: real,
    establishedLow: int, establishedHigh: int)

  function ParametersOf(t: Tier): TierParameters
  {
    match t
    case Tier1 => TierParameters(8000, 30000, 250000.0, 1000000.0, 75.0, 95.0, 1950, 2010)
    case Tier2 => TierParameters(3000, 15000, 150000.0, 500000.0, 60.0, 85.0, 1960, 2015)
    case Tier3 => TierParameters(800, 8000, 75000.0, 300000.0, 40.0, 75.0, 1970, 2020)
  }

  predicate ValidInstitutionDraw(d: InstitutionDraw, cityRows: seq<CityRow>)
  {
    && d.cityIndex < |cityRows|
    && d.prefixIndex < |Prefixes|
    && d.specializationIndex < |Specializations|
    && d.typeIndex < |InstitutionTypes|
    && var p := ParametersOf(cityRows[d.cityIndex].tier);
    && p.studentsLow <= d.students <= p.studentsHigh
    && p.feesLow <= d.fees <= p.feesHigh
    && p.placementLow <= d.placement <= p.placementHigh
    && p.establishedLow <= d.establishment <= p.establishedHigh
    && 0.0 <= d.placementRoll < 1.0
  }

  /** `f"{prefix} {specialization} {inst_type}, {city_name}"` */
  function InstitutionName(prefix: string, specialization: string, instType: string, cityName: string): string
  {
    prefix + " " + specialization + " " + instType + ", " + cityName
  }

  /** Splits a name of the above form, given its city, back into prefix,
      specialisation and type: the first word, the words in between and the
      last word before ", city". */
  function ParseInstitutionName(name: string, cityName: string): Option<(string, string, string)>
  {
    var suffix := ", " + cityName;
    if |name| < |suffix| || name[|name| - |suffix|..] != suffix then None
    else
      var body := name[..|name| - |suffix|];
      var prefix, instType := FirstWord(body), LastWord(body);
      if |prefix| + |instType| + 2 > |body| then None
      else Some((prefix, body[|prefix| + 1..|body| - |instType| - 1], instType))
  }

  /** Parsing a composed name gives its parts back, provided the prefix and
      the type are single words (the specialisation may contain spaces). */
  lemma InstitutionNameRoundTrip(prefix: string, specialization: string, instType: string, cityName: string)
    requires ' ' !in prefix && ' ' !in instType
    ensures ParseInstitutionName(InstitutionName(prefix, specialization, instType, cityName), cityName)
      == Some((prefix, specialization, instType))
  {
    var name := InstitutionName(prefix, specialization, instType, cityName);
    var body := prefix + " " + specialization + " " + instType;
    assert name == body + (", " + cityName);
    assert name[..|name| - |", " + cityName|] == body;
    assert name[|name| - |", " + cityName|..] == ", " + cityName;
    FirstWordOf(prefix, specialization + " " + instType);
    assert body == prefix + " " + (specialization + " " + instType);
    LastWordOf(prefix + " " + specialization, instType);
    assert body[|prefix| + 1..|body| - |instType| - 1] == specialization;
  }

  /** Every listed prefix and type is a single word. */
  lemma ListedWordsHaveNoSpace()
    ensures forall i :: 0 <= i < |Prefixes| ==> ' ' !in Prefixes[i]
    ensures forall i :: 0 <= i < |InstitutionTypes| ==> ' ' !in InstitutionTypes[i]
  {
  }

  function InstitutionRow(institutionId: nat, d: InstitutionDraw, cityRows: seq<CityRow>): Institution
    requires ValidInstitutionDraw(d, cityRows)
  {
    var city := cityRows[d.cityIndex];
    var instType := InstitutionTypes[d.typeIndex];
    Institution(
      institutionId,
      InstitutionName(Prefixes[d.prefixIndex], Specializations[d.specializationIndex], instType, city.cityName),
      city.cityId,
      instType,
      d.establishment,
      d.students,
      d.fees,
      if d.placementRoll > 0.05 then Some(d.placement) else None,
      d.accreditation)
  }

  /** Builds the institution table batch by batch over `range(0, n, batchSize)`;
      the row at position k is institution k + 1, built from the k-th draw. */
  method CreateInstitutions(cityRows: seq<CityRow>, n: nat, batchSize: nat, draws: seq<InstitutionDraw>)
    returns (rows: seq<Institution>, ghost batches: seq<nat>)
    requires batchSize > 0
    requires |draws| == n
    requires forall k :: 0 <= k < n ==> ValidInstitutionDraw(draws[k], cityRows)
    ensures |rows| == n
    ensures forall k :: 0 <= k < n ==> rows[k] == InstitutionRow(k + 1, draws[k], cityRows)
    ensures forall k :: 0 <= k < n ==> rows[k].institutionId == k + 1
    ensures batches == BatchStarts(0, n, batchSize)
  {
    rows := [];
    var batchStart: nat := 0;
    batches := [];
    while batchStart < n
      invariant |rows| == Min(batchStart, n)
      invariant forall k :: 0 <= k < |rows| ==> rows[k] == InstitutionRow(k + 1, draws[k], cityRows)
      invariant batches + BatchStarts(batchStart, n, batchSize) == BatchStarts(0, n, batchSize)
      decreases n - batchStart
    {
      var batchEnd := Min(batchStart + batchSize, n);
      var i := 0;
      while i < batchEnd - batchStart
        invariant 0 <= i <= batchEnd - batchStart
        invariant |rows| == batchStart + i
        invariant forall k :: 0 <= k < |rows| ==> rows[k] == InstitutionRow(k + 1, draws[k], cityRows)
      {
        var institutionId := batchStart + i + 1;
        rows := rows + [InstitutionRow(institutionId, draws[batchStart + i], cityRows)];
        i := i + 1;
      }
      NextBatch(batches, batchStart, n, batchSize);
      batches := batches + [batchStart];
      batchStart := batchStart + batchSize;
    }
  }

  /** An institution row names its own type and city: parsing its name with
      the name of the city its `city_id` points at gives back a listed prefix,
      a listed specialisation and the row's `institution_type`. */
  lemma InstitutionNameNamesType(institutionId: nat, d: InstitutionDraw, cityRows: seq<CityRow>,
                                 cities: seq<CityInfo>, states: seq<StateInfo>)
    requires IsCityTable(cityRows, cities, states)
    requires ValidInstitutionDraw(d, cityRows)
    ensures var r := InstitutionRow(institutionId, d, cityRows);
      && 1 <= r.cityId <= |cities|
      && r.institutionType in InstitutionTypes
      && var parsed := ParseInstitutionName(r.institutionName, cities[r.cityId - 1].cityName);
      && parsed.Some?
      && parsed.value.0 in Prefixes
      && parsed.value.1 in Specializations
      && parsed.value.2 == r.institutionType
  {
    ListedWordsHaveNoSpace();
    var city := cityRows[d.cityIndex];
    InstitutionNameRoundTrip(Prefixes[d.prefixIndex], Specializations[d.specializationIndex],
                             InstitutionTypes[d.typeIndex], city.cityName);
  }

  /** The placement rate is missing exactly when the roll is at most 0.05, and
      otherwise lies in the range of the city's tier; the other parameters
      lie in their tier ranges too. */
  lemma InstitutionParameters(institutionId: nat, d: InstitutionDraw, cityRows: seq<CityRow>)
    requires ValidInstitutionDraw(d, cityRows)
    ensures var r := InstitutionRow(institutionId, d, cityRows);
      var p := ParametersOf(cityRows[d.cityIndex].tier);
      && (r.placementRate.None? <==> d.placementRoll <= 0.05)
      && (r.placementRate.Some? ==> p.placementLow <= r.placementRate.value <= p.placementHigh)
      && p.studentsLow <= r.totalStudents <= p.studentsHigh
      && p.feesLow <= r.averageCourseFee <= p.feesHigh
      && p.establishedLow <= r.establishmentYear <= p.establishedHigh
  {
  }
}
