# EduFin synthetic loan-portfolio generator — a Dafny model

The EduFin generator fills nine tables of a synthetic education-loan
portfolio for Databricks. It has two dimension tables, `dim_state` and
`dim_city`, built from fixed lists of 28 Indian states and 252 cities. It has
seven fact tables: `customers`, `institutions`, `loans`, `payments`,
`defaults_collections`, `geographic_demographics` and `economic_indicators`.
Almost every value comes from a random draw. Under the draws there is a layer
of deterministic rules, and this project states that layer in Dafny and proves
its properties. The rules are:

- the numbering of rows;
- the state-name lookup that links cities to states;
- the customer-to-loan list (built, shuffled in place, cut);
- the credit-score clamp;
- the loan status chain and the loan date arithmetic;
- the payment floor and the payment split;
- the collection banding and the legal-notice rule;
- the population sub-bands;
- the composed strings (phone number, institution name, quarter label).

The repository holds two byte-identical copies of the generator:
`EduFin_SQL_V2_Collection_Strategy/SQL_V2_data_Code_5Lakh.py` and
`Skill_AI_Path_SQL_Track/SQL_V2_data_Code_5Lakh.py`. Both have the same line
numbers, so one model covers both. The table below cites the first copy.

How the model is built:

- **Draws are inputs.** Each `random`, Faker or pandas draw becomes an input
  of the model. Each fact table has a `...Draw` record per row. A `Valid...Draw`
  predicate gives the ranges the generator samples from, and the builders and
  lemmas require it.
- **Dates are day numbers.** Dates are integers, and "today" is a parameter.
  Python's `datetime.now().year` is a separate `currentYear` parameter.
- **Probabilities and floats are exact.** They are modelled as Dafny `real`.
- **Builders are loops.** The table builders are methods with the source's
  own loops:
  - a batched walk over `range(0, n, batch)` for customers, institutions and
    loans, with a running `loan_id` counter for loans;
  - a `range(1, n + 1)` loop for the other fact tables.
- **Each builder is proved against a row function.** Its rows are
  `RowOf(k + 1, draw k)`. Lemmas then state what each row function
  guarantees.
- **The shuffle works in place.** `random.shuffle` is a Fisher–Yates pass
  over an `array`, with the drawn swap positions as input. It is proved equal
  to a specification function, and that function is proved to be a
  permutation.

Modules: `Batching`, `ReferenceData`, `Dimensions`, `Text`, `Values`,
`Customers`, `Institutions`, `Loans`, `Payments`, `Defaults`, `Geo`,
`Economic`.

The model keeps these behaviours of the code:

- The comment above the loan pools speaks of 60/30/10 per cent of
  customers. The code takes `int(0.6 * L)` single loans and `int(0.25 * L)`
  loans in pairs. The rest are in triples. The model follows the code.
- The credit score used for a loan's rate and status is a fresh draw in
  300..900. It is not the customer's stored score.
- Some references are plain uniform draws over an id range, not lookups:
  - the loan, customer and institution ids of loans, payments and defaults;
  - the city id of the demographics rows;
  - the state id of the economic rows.
- The tier of a demographics row and the region of an economic row are drawn
  independently of the referenced city or state.

## Model

| member | source | states |
|---|---|---|
| `ReferenceData.CitiesNameListedStates` | EduFin_SQL_V2_Collection_Strategy/SQL_V2_data_Code_5Lakh.py:50-390 | The state list has 28 entries and the city list 252. The state name of every city is one of the listed state names. |
| `ReferenceData.BilaspurTwice` | EduFin_SQL_V2_Collection_Strategy/SQL_V2_data_Code_5Lakh.py:153-207 | Cities 62 and 108 are both named Bilaspur. They are listed under Chhattisgarh and Himachal Pradesh. |
| `ReferenceData.UdaipurTwice` | EduFin_SQL_V2_Collection_Strategy/SQL_V2_data_Code_5Lakh.py:324-360 | Cities 201 and 229 are both named Udaipur. They are listed under Rajasthan and Tripura. |
| `Dimensions.CreateDimState` | EduFin_SQL_V2_Collection_Strategy/SQL_V2_data_Code_5Lakh.py:400-406 | One row per state, in list order. Row k has id k+1 and the name and region of state k. |
| `Dimensions.StateLookupKeys` | EduFin_SQL_V2_Collection_Strategy/SQL_V2_data_Code_5Lakh.py:427 | Every state name of the rows is a key of the name-to-id dictionary. |
| `Dimensions.StateLookupEntry` | EduFin_SQL_V2_Collection_Strategy/SQL_V2_data_Code_5Lakh.py:427 | Each key of the dictionary maps to the id of the last row carrying that name. This is the comprehension's later-wins behaviour. |
| `Dimensions.LookupResolvesBack` | EduFin_SQL_V2_Collection_Strategy/SQL_V2_data_Code_5Lakh.py:427-431 | On a state table, every key maps to an id in 1..number of states. That id's state has the key as its name. |
| `Dimensions.CityLookupTotal` | EduFin_SQL_V2_Collection_Strategy/SQL_V2_data_Code_5Lakh.py:427-431 | If every city names a listed state, each city's state name is a key of the lookup, so no `KeyError` can occur. |
| `Dimensions.CreateDimCity` | EduFin_SQL_V2_Collection_Strategy/SQL_V2_data_Code_5Lakh.py:427-437 | The build succeeds if and only if every state name resolves. When it succeeds, row k is city k with id k+1 and the looked-up state id. On failure it reports the first unresolved name. |
| `Dimensions.CreateDimensionTables` | EduFin_SQL_V2_Collection_Strategy/SQL_V2_data_Code_5Lakh.py:396-437 | On the fixed lists: 28 state rows and 252 city rows. Every city row has id position+1 and its own name and tier, and its state id points at the state of the same name. |
| `Dimensions.SameNameDistinctCities` | EduFin_SQL_V2_Collection_Strategy/SQL_V2_data_Code_5Lakh.py:430-437 | Two cities with the same name in different states get different city ids and different state ids. |
| `Dimensions.BilaspurRowsDistinct` | EduFin_SQL_V2_Collection_Strategy/SQL_V2_data_Code_5Lakh.py:430-437 | In the built city table, the two Bilaspur rows differ in city id and in state id. |
| `Dimensions.UdaipurRowsDistinct` | EduFin_SQL_V2_Collection_Strategy/SQL_V2_data_Code_5Lakh.py:430-437 | In the built city table, the two Udaipur rows differ in city id and in state id. |
| `Batching.BatchesTile` | EduFin_SQL_V2_Collection_Strategy/SQL_V2_data_Code_5Lakh.py:467-470 | The batches of `range(from, n, size)` with `min` ends start at `from` and each ends where the next starts. The last ends at n, and each holds 1..size rows. |
| `Batching.BatchCount` | EduFin_SQL_V2_Collection_Strategy/SQL_V2_data_Code_5Lakh.py:467 | `range(from, n, size)` has ceil((n - from) / size) batch starts. |
| `Batching.BatchedIdsAreConsecutive` | EduFin_SQL_V2_Collection_Strategy/SQL_V2_data_Code_5Lakh.py:467-475 | Numbering `batch_start + i + 1` over all batches gives exactly from+1..n, in order, with no gap or repeat. |
| `Customers.CreateCustomers` | EduFin_SQL_V2_Collection_Strategy/SQL_V2_data_Code_5Lakh.py:467-556 | The batched loop yields n rows. Row k is customer k+1, built from the k-th draw. The loop visits exactly the batch starts of `range(0, n, batch)`. |
| `Customers.CibilScoreInRange` | EduFin_SQL_V2_Collection_Strategy/SQL_V2_data_Code_5Lakh.py:524 | The clamped score is always in 300..900. |
| `Customers.CibilScoreOfBase` | EduFin_SQL_V2_Collection_Strategy/SQL_V2_data_Code_5Lakh.py:517-524 | On drawn bases, an income of at most 10 lakh gives the truncated base. A higher income adds 50, capped at 900. |
| `Customers.CibilScoreMonotone` | EduFin_SQL_V2_Collection_Strategy/SQL_V2_data_Code_5Lakh.py:524 | A higher income never lowers the score. |
| `Customers.AnnualIncomeBounds` | EduFin_SQL_V2_Collection_Strategy/SQL_V2_data_Code_5Lakh.py:498-514 | The income lies between the products of the tier's base-income ends and the employment's multiplier ends. |
| `Customers.StudentsGetNoIncomeBonus` | EduFin_SQL_V2_Collection_Strategy/SQL_V2_data_Code_5Lakh.py:505-524 | A student earns at most 7.2 lakh, so never gets the bonus. The score is the truncated base, in 550..750. |
| `Customers.PhoneNumberRoundTrip` | EduFin_SQL_V2_Collection_Strategy/SQL_V2_data_Code_5Lakh.py:527 | The phone number is "+91" plus ten digits, 13 characters in all. The digits read back as the drawn number. |
| `Customers.CustomerRowFacts` | EduFin_SQL_V2_Collection_Strategy/SQL_V2_data_Code_5Lakh.py:475-556 | On a city table: the city id is a listed city, and the income fits that city's tier range. The score is in 300..900 and the employer belongs to the employment type. The birth month is 1..12 and the day 1..28, and the age by calendar year is 18..30. |
| `Text.DecimalRoundTrip` | EduFin_SQL_V2_Collection_Strategy/SQL_V2_data_Code_5Lakh.py:1023 | Reading back the decimal rendering of a natural number gives the number. |
| `Text.DecimalLength` | EduFin_SQL_V2_Collection_Strategy/SQL_V2_data_Code_5Lakh.py:527 | A number with k digits renders as k characters. |
| `Text.FirstWordOf` | EduFin_SQL_V2_Collection_Strategy/SQL_V2_data_Code_5Lakh.py:605 | The first word of `w + " " + rest` is `w` when `w` has no space. |
| `Text.LastWordOf` | EduFin_SQL_V2_Collection_Strategy/SQL_V2_data_Code_5Lakh.py:605 | The last word of `rest + " " + w` is `w` when `w` has no space. |
| `Institutions.InstitutionNameRoundTrip` | EduFin_SQL_V2_Collection_Strategy/SQL_V2_data_Code_5Lakh.py:605 | Parsing a composed name with its city gives back prefix, specialisation and type. The prefix and the type must be single words. |
| `Institutions.ListedWordsHaveNoSpace` | EduFin_SQL_V2_Collection_Strategy/SQL_V2_data_Code_5Lakh.py:579-580 | Every listed prefix and institution type is a single word. |
| `Institutions.CreateInstitutions` | EduFin_SQL_V2_Collection_Strategy/SQL_V2_data_Code_5Lakh.py:589-637 | The batched loop yields n rows. Row k is institution k+1, built from the k-th draw. The loop visits exactly the batch starts of `range(0, n, batch)`. |
| `Institutions.InstitutionNameNamesType` | EduFin_SQL_V2_Collection_Strategy/SQL_V2_data_Code_5Lakh.py:600-631 | Parsed with the name of the city its `city_id` points at, the name gives a listed prefix and a listed specialisation. Its type equals the row's `institution_type`. |
| `Institutions.InstitutionParameters` | EduFin_SQL_V2_Collection_Strategy/SQL_V2_data_Code_5Lakh.py:607-635 | The placement rate is `None` exactly when the roll is at most 0.05. Otherwise it lies in the tier's range. Students, fees and founding year lie in the tier's ranges. |
| `Loans.PoolsFillList` | EduFin_SQL_V2_Collection_Strategy/SQL_V2_data_Code_5Lakh.py:665-687 | The list length c1 + 2(c2 div 2) + 3(c3 div 3) equals L exactly when c2 is even and c3 is a multiple of 3. |
| `Loans.PoolsForLoanRecords` | EduFin_SQL_V2_Collection_Strategy/SQL_V2_data_Code_5Lakh.py:660-687 | For L = 400000 the pools are 240000, 100000 and 60000, and the list has exactly 400000 entries. |
| `Loans.BuildLoanList` | EduFin_SQL_V2_Collection_Strategy/SQL_V2_data_Code_5Lakh.py:673-688 | The append and extend loops produce the singles, then each double twice in a row, then each triple three times in a row. |
| `Loans.RepeatedCounts` | EduFin_SQL_V2_Collection_Strategy/SQL_V2_data_Code_5Lakh.py:681-688 | Repeating every element m times multiplies the multiset by m. |
| `Loans.LoanListCounts` | EduFin_SQL_V2_Collection_Strategy/SQL_V2_data_Code_5Lakh.py:676-688 | The list's multiset holds the singles once, the doubles twice and the triples three times. |
| `Loans.Shuffle` | EduFin_SQL_V2_Collection_Strategy/SQL_V2_data_Code_5Lakh.py:691 | The in-place Fisher–Yates pass leaves the array equal to the specification of swaps from the last position down to 1. |
| `Loans.SwapIsPermutation` | EduFin_SQL_V2_Collection_Strategy/SQL_V2_data_Code_5Lakh.py:691 | One swap keeps the multiset. |
| `Loans.ShuffledIsPermutation` | EduFin_SQL_V2_Collection_Strategy/SQL_V2_data_Code_5Lakh.py:691 | The shuffle is a permutation: the multiset of the list is unchanged. |
| `Loans.CreateCustomerLoanPairs` | EduFin_SQL_V2_Collection_Strategy/SQL_V2_data_Code_5Lakh.py:673-692 | The customer list is the built list, shuffled, cut to the first `loans` entries. |
| `Loans.CustomerLoanPairsFacts` | EduFin_SQL_V2_Collection_Strategy/SQL_V2_data_Code_5Lakh.py:665-692 | When the pools are `int(0.6L)`, `int(0.25L)` and the rest, and they divide into pairs and triples, the cut keeps the whole list. The result has exactly L ids, has the same multiset as the built list, and every id is in 1..customers. |
| `Loans.CreateLoans` | EduFin_SQL_V2_Collection_Strategy/SQL_V2_data_Code_5Lakh.py:670-767 | The batched loop with the `loan_id` counter yields n loans. Loan i has id i+1 and the customer at position i of the list. The loop visits exactly the batch starts of `range(0, n, batch)`. |
| `Loans.CreateLoansTable` | EduFin_SQL_V2_Collection_Strategy/SQL_V2_data_Code_5Lakh.py:656-767 | The whole step for 400000 loans. The built list and the swap positions both have 400000 entries, so every list position the loop reads exists. Loan i is built from the i-th customer of the shuffled list and the i-th draw. Loan ids are 1..400000, customer ids are in 1..customers, and their multiset is that of the pools. Every loan has a drawn institution id in range, application < disbursement < today, and maturity = disbursement + 30·tenure. |
| `Loans.DefaultProbabilityBands` | EduFin_SQL_V2_Collection_Strategy/SQL_V2_data_Code_5Lakh.py:733-737 | The default probability is 0.23 below 600, 0.16 from 600 to 699, and 0.08 from 700. |
| `Loans.LoanStatusRule` | EduFin_SQL_V2_Collection_Strategy/SQL_V2_data_Code_5Lakh.py:739-747 | Defaulted iff roll < p. Overdue iff p ≤ roll < p + 0.06. Closed iff beyond that and months ≥ tenure; Active iff beyond that and months < tenure. |
| `Loans.LoanDates` | EduFin_SQL_V2_Collection_Strategy/SQL_V2_data_Code_5Lakh.py:715-731 | The application falls 60..1460 days ago and disbursement 7..45 days after it, before today. Maturity is disbursement + 30·tenure, the tenure is in {36,…,96}, and at least one month is counted. |
| `Loans.ClosedMeansMatured` | EduFin_SQL_V2_Collection_Strategy/SQL_V2_data_Code_5Lakh.py:718-747 | Outside the default and overdue bands, a loan is Closed iff its maturity date is not after today. Only 36- and 48-month loans can be Closed. |
| `Loans.LoanAmountAndRate` | EduFin_SQL_V2_Collection_Strategy/SQL_V2_data_Code_5Lakh.py:699-713 | The amount lies in 2..10.5 lakh and the rate in 8.5..17.5. The institution id is in range. |
| `Payments.CreatePayments` | EduFin_SQL_V2_Collection_Strategy/SQL_V2_data_Code_5Lakh.py:793-840 | The loop yields n rows. Row k is payment k+1, built from the k-th draw. |
| `Payments.PaymentAmountFloor` | EduFin_SQL_V2_Collection_Strategy/SQL_V2_data_Code_5Lakh.py:802-808 | The amount is at least 1000. On drawn values the pre-floor amount is already at least 1500, so the floor never acts. |
| `Payments.PaymentComponents` | EduFin_SQL_V2_Collection_Strategy/SQL_V2_data_Code_5Lakh.py:816-827 | Success iff the roll is below 0.92. A non-success payment has zero interest, principal and late fee. A success has principal + interest = amount, interest 30–70% of it, and a late fee of 0..1000 that is non-zero only for a roll below 0.08. |
| `Payments.PaymentDateAndBalance` | EduFin_SQL_V2_Collection_Strategy/SQL_V2_data_Code_5Lakh.py:795-826 | The date is 1..730 days ago, and the outstanding balance lies in the range of the payment's status. |
| `Defaults.CreateDefaultsCollections` | EduFin_SQL_V2_Collection_Strategy/SQL_V2_data_Code_5Lakh.py:866-924 | The loop yields n rows. Row k is default k+1, built from the k-th draw. |
| `Defaults.CollectionBanding` | EduFin_SQL_V2_Collection_Strategy/SQL_V2_data_Code_5Lakh.py:871-887 | Days overdue equal the drawn days back, 30..1095. The status is one of its band's options. Settled occurs only above 730, Written Off above 365 and Legal Action above 180; at most 180 gives Active. |
| `Defaults.ContactWindow` | EduFin_SQL_V2_Collection_Strategy/SQL_V2_data_Code_5Lakh.py:893-894 | The contact range 1..min(overdue, 90) is non-empty. The last contact is within the last 90 days and not before the default date. |
| `Defaults.LegalNoticeRule` | EduFin_SQL_V2_Collection_Strategy/SQL_V2_data_Code_5Lakh.py:897-898 | A notice is always sent for Legal Action and Written Off and never at 180 days or less. Otherwise one is sent iff the roll is below 0.4. |
| `Defaults.RecoveryBounded` | EduFin_SQL_V2_Collection_Strategy/SQL_V2_data_Code_5Lakh.py:901-907 | For every status, 0 ≤ recovery ≤ 0.9 · default amount ≤ default amount. |
| `Geo.CreateGeographicDemographics` | EduFin_SQL_V2_Collection_Strategy/SQL_V2_data_Code_5Lakh.py:949-989 | The loop yields n rows. Row k has `geo_id` k+1 and is built from the k-th draw. |
| `Geo.TruncatedShare` | EduFin_SQL_V2_Collection_Strategy/SQL_V2_data_Code_5Lakh.py:976-977 | `int` of a count times a share in 0..1 lies between 0 and the count. |
| `Geo.PopulationBands` | EduFin_SQL_V2_Collection_Strategy/SQL_V2_data_Code_5Lakh.py:976-977 | 0 ≤ population 18–35 ≤ total population, and 0 ≤ enrolment ≤ population 18–35. |
| `Geo.GeoCityListed` | EduFin_SQL_V2_Collection_Strategy/SQL_V2_data_Code_5Lakh.py:951 | Drawn against the fixed list, the city id is in 1..252, so it is a position of the city list. |
| `Economic.CreateEconomicIndicators` | EduFin_SQL_V2_Collection_Strategy/SQL_V2_data_Code_5Lakh.py:1016-1069 | The loop yields n rows. Row k has `indicator_id` k+1 and is built from the k-th draw. |
| `Economic.QuarterRoundTrip` | EduFin_SQL_V2_Collection_Strategy/SQL_V2_data_Code_5Lakh.py:1013-1023 | For years 2019..2024 the label "YYYY-Qn" is 7 characters and parses back to its year and quarter. |
| `Economic.EconomicRowFacts` | EduFin_SQL_V2_Collection_Strategy/SQL_V2_data_Code_5Lakh.py:1018-1023 | Drawn against the fixed list, the state id is in 1..28. The quarter is a well-formed 7-character label of the drawn year and quarter. |
| `Economic.CovidImpact` | EduFin_SQL_V2_Collection_Strategy/SQL_V2_data_Code_5Lakh.py:1052-1057 | In 2020 and 2021 GDP growth is lowered and unemployment raised relative to the drawn regional values. Other years keep them. |

## Left out

- **Spark, pandas and Delta.** The Spark session, the pandas DataFrames, and `createDataFrame`/`saveAsTable`: these are foreign library calls with no logic to model.
- **Faker values.** First and last names and the address are draw inputs. The lower-casing in the e-mail address is modelled for ASCII letters only, whereas Python's `str.lower` is Unicode-wide.
- **Random generators.** The seeding of `random`, NumPy and Faker, and the order in which draws are consumed, are not modelled. Draws are range-constrained inputs, so reproducibility is not modelled either. A draw the generator makes only on some paths is present in every draw record and unused on the others.
- **Weights and distributions.** The weights of `random.choices` and of `city_df.sample` are not modelled: the model takes the chosen value or city index as input. Proportions are probabilistic, not contracts.
- **Per-batch sampling.** `city_df.sample` is called once per batch, and those calls are folded into one sampled city index per row.
- **EMI.** The amortisation formula is floating-point numerics, so the `emi_amount` column is not part of the loan row.
- **`round(x, 2)`.** Money amounts and rates are kept exact, not rounded.
- **Exact reals instead of floats.** Sums of probabilities and comparisons with them use exact reals. In binary floating point, 0.08 + 0.15 is one unit in the last place below 0.23, so a roll equal to that boundary could be classified differently.
- **Loan pool sizes.** `int(0.6 * L)` and `int(0.25 * L)` are modelled as the exact (6L) div 10 and L div 4. These agree with the float results for L = 400000.
- **Run sizes.** The batched builders take the number of rows and the batch size as parameters. Only the loan step is stated on the run's sizes, 400000 loans in batches of `Batching.BatchSize`. For customers (500000) and the other tables (350000), the sizes appear as constants but no run-level method applies them.
- **Orchestration.** `log_progress`, prints, `time`, `gc.collect`, `main` with its summary and trailing queries, and the generator's step order are console I/O and orchestration.
- **Birth dates.** The date of birth is a (year, month, day) triple, with the year being the current year minus the drawn age. Python's `date` type is not modelled, but the day is at most 28, so the triple is always a valid date.
