/**
  The `customers` fact table. Each row is built from one sampled `dim_city`
  row and a fixed set of random draws; the draws are inputs here (a
  `CustomerDraw` per row), constrained to the ranges the generator samples
  from. Derived fields — income, CIBIL score, phone number, e-mail, birth
  date, employer — are functions of the draw.
 */
module Customers {
  import opened Batching
  import opened ReferenceData
  import opened Dimensions
  import opened Text
  import opened Values

  datatype Gender = Male | Female

  datatype Employment = PrivateEmployee | GovernmentEmployee | SelfEmployed | BusinessOwner | Student

  datatype Education = Bachelors | Masters | PhD | Diploma | HigherSecondary

  datatype Date = Date(year: int, month: int, day: int)

  /** The five employment multipliers, all drawn for every customer (in the
      order government, private, business, self-employed, student); only the
      one of the customer's employment type is used. */
  datatype Multipliers = Multipliers(government: real, privateSector: real, business: real, selfEmployed: real, student: real)

  /** Everything the generator draws for one customer. `cityIndex` is the
      position, in the city table, of the city sampled for this row. */
  datatype CustomerDraw = CustomerDraw(
    cityIndex: nat,
    gender: Gender,
    firstName: string,
    lastName: string,
    age: int,
    birthMonth: int,
    birthDay: int,
    employment: Employment,
    baseIncome: real,
    multipliers: Multipliers,
    cibilBase: real,
    phoneDigits: int,
    address: string,
    employerIndex: nat,
    education: Education)

  datatype Customer = Customer(
    customerId: int,
    fullName: string,
    phoneNumber: string,
    emailAddress: string,
    cityId: int,
    currentAddress: string,
    annualIncome: real,
    cibilScore: int,
    employment: Employment,
    employerName: string,
    dateOfBirth: Date,
    gender: Gender,
    education: Education)

  const CustomerRecords: nat := 500000

  /** Base income range by city tier. */
  function TierIncomeLow(t: Tier): real
  {
    match t
    case Tier1 => 600000.0
    case Tier2 => 400000.0
    case Tier3 => 250000.0
  }

  function TierIncomeHigh(t: Tier): real
  {
    match t
    case Tier1 => 1800000.0
    case Tier2 => 1200000.0
    case Tier3 => 800000.0
  }

  /** Income multiplier range by employment type. */
  function MultiplierLow(e: Employment): real
  {
    match e
    case GovernmentEmployee => 0.8
    case PrivateEmployee => 0.6
    case BusinessOwner => 1.0
    case SelfEmployed => 0.4
    case Student => 0.1
  }

  function MultiplierHigh(e: Employment): real
  {
    match e
    case GovernmentEmployee => 1.3
    case PrivateEmployee => 1.6
    case BusinessOwner => 3.0
    case SelfEmployed => 2.0
    case Student => 0.4
  }

  /** CIBIL base range by employment type. */
  function CibilBaseLow(e: Employment): real
  {
    match e
    case GovernmentEmployee => 650.0
    case PrivateEmployee => 600.0
    case _ => 550.0
  }

  function CibilBaseHigh(e: Employment): real
  {
    match e
    case GovernmentEmployee => 850.0
    case PrivateEmployee => 800.0
    case _ => 750.0
  }

  /** The employer names a customer of the given employment type draws from. */
  function Employers(e: Employment): (names: seq<string>)
    ensures |names| >= 3
  {
    match e
    case GovernmentEmployee => ["Ministry of Education", "State Government", "Railway", "PSU Bank"]
    case PrivateEmployee => ["TCS", "Infosys", "Wipro", "Accenture", "IBM", "Microsoft"]
    case SelfEmployed => ["Self Employed", "Freelance", "Consultant"]
    case BusinessOwner => ["Own Business", "Family Business", "Trading Co"]
    case Student => ["Not Applicable", "Part-time", "Internship"]
  }

  function MultiplierFor(m: Multipliers, e: Employment): real
  {
    match e
    case GovernmentEmployee => m.government
    case PrivateEmployee => m.privateSector
    case BusinessOwner => m.business
    case SelfEmployed => m.selfEmployed
    case Student => m.student
  }

  predicate MultipliersInRange(m: Multipliers)
  {
    forall e: Employment :: MultiplierLow(e) <= MultiplierFor(m, e) <= MultiplierHigh(e)
  }

  /** The draw is one the generator can make for a city table `cityRows`. */
  predicate ValidCustomerDraw(d: CustomerDraw, cityRows: seq<CityRow>)
  {
    && d.cityIndex < |cityRows|
    && 18 <= d.age <= 30
    && 1 <= d.birthMonth <= 12
    && 1 <= d.birthDay <= 28
    && TierIncomeLow(cityRows[d.cityIndex].tier) <= d.baseIncome <= TierIncomeHigh(cityRows[d.cityIndex].tier)
    && MultipliersInRange(d.multipliers)
    && CibilBaseLow(d.employment) <= d.cibilBase <= CibilBaseHigh(d.employment)
    && 7000000000 <= d.phoneDigits <= 9999999999
    && d.employerIndex < |Employers(d.employment)|
  }

  function AnnualIncome(d: CustomerDraw): real
  {
    d.baseIncome * MultiplierFor(d.multipliers, d.employment)
  }

  /** `int(min(900, max(300, base + bonus)))`, the bonus being 50 points for
      an annual income above 10 lakh. */
  function CibilScore(base: real, income: real): int
  {
    RealMin(900.0, RealMax(300.0, base + (if income > 1000000.0 then 50.0 else 0.0))).Floor
  }

  function PhoneNumber(digits: nat): string
  {
    "+91" + DecimalString(digits)
  }

  function LowerChar(c: char): char
  {
    if 'A' <= c <= 'Z' then (c as int + 32) as char else c
  }

  function Lower(s: string): (r: string)
    ensures |r| == |s|
  {
    seq(|s|, i requires 0 <= i < |s| => LowerChar(s[i]))
  }

  function EmailAddress(firstName: string, lastName: string, customerId: nat): string
  {
    Lower(firstName) + "." + Lower(lastName) + DecimalString(customerId) + "@gmail.com"
  }

  /** The row of customer `customerId` built from draw `d`. */
  function CustomerRow(customerId: nat, d: CustomerDraw, cityRows: seq<CityRow>, currentYear: int): Customer
    requires ValidCustomerDraw(d, cityRows)
  {
    var income := AnnualIncome(d);
    Customer(
      customerId,
      d.firstName + " " + d.lastName,
      PhoneNumber(d.phoneDigits),
      EmailAddress(d.firstName, d.lastName, customerId),
      cityRows[d.cityIndex].cityId,
      d.address,
      income,
      CibilScore(d.cibilBase, income),
      d.employment,
      Employers(d.employment)[d.employerIndex],
      Date(currentYear - d.age, d.birthMonth, d.birthDay),
      d.gender,
      d.education)
  }

  /** Builds the customer table batch by batch over `range(0, n, batchSize)`;
      the row at position k is customer k + 1, built from the k-th draw. */
  method CreateCustomers(cityRows: seq<CityRow>, n: nat, batchSize: nat, draws: seq<CustomerDraw>, currentYear: int)
    returns (rows: seq<Customer>, ghost batches: seq<nat>)
    requires batchSize > 0
    requires |draws| == n
    requires forall k :: 0 <= k < n ==> ValidCustomerDraw(draws[k], cityRows)
    ensures |rows| == n
    ensures forall k :: 0 <= k < n ==> rows[k] == CustomerRow(k + 1, draws[k], cityRows, currentYear)
    ensures forall k :: 0 <= k < n ==> rows[k].customerId == k + 1
    ensures batches == BatchStarts(0, n, batchSize)
  {
    rows := [];
    var batchStart: nat := 0;
    batches := [];
    while batchStart < n
      invariant |rows| == Min(batchStart, n)
      invariant forall k :: 0 <= k < |rows| ==> rows[k] == CustomerRow(k + 1, draws[k], cityRows, currentYear)
      invariant batches + BatchStarts(batchStart, n, batchSize) == BatchStarts(0, n, batchSize)
      decreases n - batchStart
    {
      var batchEnd := Min(batchStart + batchSize, n);
      var i := 0;
      while i < batchEnd - batchStart
        invariant 0 <= i <= batchEnd - batchStart
        invariant |rows| == batchStart + i
        invariant forall k :: 0 <= k < |rows| ==> rows[k] == CustomerRow(k + 1, draws[k], cityRows, currentYear)
      {
        var customerId := batchStart + i + 1;
        rows := rows + [CustomerRow(customerId, draws[batchStart + i], cityRows, currentYear)];
        i := i + 1;
      }
      NextBatch(batches, batchStart, n, batchSize);
      batches := batches + [batchStart];
      batchStart := batchStart + batchSize;
    }
  }

  /** The score always lies in 300..900, whatever the base and the income. */
  lemma CibilScoreInRange(base: real, income: real)
    ensures 300 <= CibilScore(base, income) <= 900
  {
  }

  /** On the bases the generator draws (550..850) the clamp to 300 never acts:
      below the 10-lakh income threshold the score is the truncated base, above
      it the truncated base plus 50, capped at 900. */
  lemma CibilScoreOfBase(base: real, income: real)
    requires 550.0 <= base <= 850.0
    ensures income <= 1000000.0 ==> CibilScore(base, income) == base.Floor
    ensures income > 1000000.0 ==> CibilScore(base, income) == Min(900, base.Floor + 50)
  {
    assert (base + 50.0).Floor == base.Floor + 50;
  }

  /** A higher income never lowers the score. */
  lemma CibilScoreMonotone(base: real, income1: real, income2: real)
    requires income1 <= income2
    ensures CibilScore(base, income1) <= CibilScore(base, income2)
  {
  }

  /** The annual income lies between the products of the ends of the tier's
      base range and the employment's multiplier range. */
  lemma AnnualIncomeBounds(d: CustomerDraw, cityRows: seq<CityRow>)
    requires ValidCustomerDraw(d, cityRows)
    ensures var t := cityRows[d.cityIndex].tier;
      TierIncomeLow(t) * MultiplierLow(d.employment) <= AnnualIncome(d)
        <= TierIncomeHigh(t) * MultiplierHigh(d.employment)
  {
    var t := cityRows[d.cityIndex].tier;
    var m := MultiplierFor(d.multipliers, d.employment);
    assert MultiplierLow(d.employment) <= m <= MultiplierHigh(d.employment);
    MulMonotone(TierIncomeLow(t), d.baseIncome, MultiplierLow(d.employment), m);
    MulMonotone(d.baseIncome, TierIncomeHigh(t), m, MultiplierHigh(d.employment));
  }

  /** A student earns at most 7.2 lakh (18 lakh times 0.4), so never gets the
      income bonus: the score is the truncated base, in 550..750. */
  lemma StudentsGetNoIncomeBonus(d: CustomerDraw, cityRows: seq<CityRow>, customerId: nat, currentYear: int)
    requires ValidCustomerDraw(d, cityRows) && d.employment == Student
    ensures AnnualIncome(d) <= 720000.0
    ensures var r := CustomerRow(customerId, d, cityRows, currentYear);
      r.cibilScore == d.cibilBase.Floor && 550 <= r.cibilScore <= 750
  {
    AnnualIncomeBounds(d, cityRows);
    var t := cityRows[d.cityIndex].tier;
    assert TierIncomeHigh(t) <= 1800000.0;
    MulMonotone(TierIncomeHigh(t), 1800000.0, 0.4, 0.4);
    CibilScoreOfBase(d.cibilBase, AnnualIncome(d));
  }

  /** The phone number is "+91" followed by the ten digits of the drawn
      number, which it gives back. */
  lemma PhoneNumberRoundTrip(digits: nat)
    requires 7000000000 <= digits <= 9999999999
    ensures var p := PhoneNumber(digits);
      && |p| == 13 && p[..3] == "+91"
      && AllDigits(p[3..]) && DecimalValue(p[3..]) == digits
  {
    var p := PhoneNumber(digits);
    assert Pow10(9) == 1000000000 && Pow10(10) == 10000000000;
    DecimalLength(digits, 10);
    DecimalRoundTrip(digits);
    assert p[3..] == DecimalString(digits);
  }

  /** A customer row on a city table: its city id names a listed city, its
      income fits the range of that city's tier, its score is in 300..900, its
      employer belongs to its employment type, and its birth date is a valid
      date putting its age (by calendar year) in 18..30. */
  lemma CustomerRowFacts(customerId: nat, d: CustomerDraw, cityRows: seq<CityRow>, cities: seq<CityInfo>,
                         states: seq<StateInfo>, currentYear: int)
    requires IsCityTable(cityRows, cities, states)
    requires ValidCustomerDraw(d, cityRows)
    ensures var r := CustomerRow(customerId, d, cityRows, currentYear);
      && r.customerId == customerId
      && 1 <= r.cityId <= |cities|
      && var t := cities[r.cityId - 1].tier;
      && TierIncomeLow(t) * MultiplierLow(r.employment) <= r.annualIncome
           <= TierIncomeHigh(t) * MultiplierHigh(r.employment)
      && 300 <= r.cibilScore <= 900
      && r.employerName in Employers(r.employment)
      && 18 <= currentYear - r.dateOfBirth.year <= 30
      && 1 <= r.dateOfBirth.month <= 12 && 1 <= r.dateOfBirth.day <= 28
  {
    AnnualIncomeBounds(d, cityRows);
    CibilScoreInRange(d.cibilBase, AnnualIncome(d));
  }
}
