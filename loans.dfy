/**
  The `loans` fact table. First a list of customer ids is built in which a
  pool of customers appears once, a second pool twice and a third pool three
  times; the list is shuffled in place and cut to the number of loans. Then
  one loan per list position is generated, numbered by a running counter.
  Dates are day numbers; `today` stands for the current date.
 */
module Loans {
  import opened Batching

  const LoanRecords: nat := 400000

  // ---------------------------------------------------------------------
  // The customer id list

  /** `int(0.6 * L)`, `int(0.25 * L)` and the remainder, in exact arithmetic. */
  function SinglePool(loans: nat): nat
  {
    (6 * loans) / 10
  }

  function DoublePool(loans: nat): nat
  {
    loans / 4
  }

  function TriplePool(loans: nat): int
  {
    loans - SinglePool(loans) - DoublePool(loans)
  }

  /** Every element of `s`, in order, each written `m` times in a row. */
  function Repeated(s: seq<int>, m: nat): (r: seq<int>)
    ensures |r| == m * |s|
  {
    if s == [] then []
    else
      assert m * |s| == m * (|s| - 1) + m;
      Repeated(s[..|s| - 1], m) + seq(m, _ => s[|s| - 1])
  }

  /** `m` copies of a multiset, added up. */
  function Times(ms: multiset<int>, m: nat): multiset<int>
  {
    if m == 0 then multiset{} else Times(ms, m - 1) + ms
  }

  lemma {:induction false} TimesDistributes(a: multiset<int>, b: multiset<int>, m: nat)
    ensures Times(a + b, m) == Times(a, m) + Times(b, m)
  {
    if m > 0 {
      TimesDistributes(a, b, m - 1);
    }
  }

  lemma {:induction false} BlockCounts(v: int, m: nat)
    ensures multiset(seq(m, _ => v)) == Times(multiset{v}, m)
  {
    if m > 0 {
      BlockCounts(v, m - 1);
      assert seq(m, _ => v) == seq(m - 1, _ => v) + [v];
    }
  }

  lemma TimesSmall(ms: multiset<int>)
    ensures Times(ms, 2) == ms + ms && Times(ms, 3) == ms + ms + ms
  {
    assert Times(ms, 1) == multiset{} + ms == ms;
  }

  /** The repeated sequence holds `m` copies of every element. */
  lemma {:induction false} RepeatedCounts(s: seq<int>, m: nat)
    ensures multiset(Repeated(s, m)) == Times(multiset(s), m)
  {
    if s != [] {
      var init, last := s[..|s| - 1], s[|s| - 1];
      RepeatedCounts(init, m);
      assert s == init + [last];
      var block := seq(m, _ => last);
      assert Repeated(s, m) == Repeated(init, m) + block;
      assert multiset(Repeated(s, m)) == multiset(Repeated(init, m)) + multiset(block);
      assert multiset(s) == multiset(init) + multiset{last};
      BlockCounts(last, m);
      TimesDistributes(multiset(init), multiset{last}, m);
    } else {
      TimesEmpty(m);
    }
  }

  lemma {:induction false} TimesEmpty(m: nat)
    ensures Times(multiset{}, m) == multiset{}
  {
    if m > 0 {
      TimesEmpty(m - 1);
    }
  }

  lemma {:induction false} RepeatedElements(s: seq<int>, m: nat)
    ensures forall k :: 0 <= k < |Repeated(s, m)| ==> Repeated(s, m)[k] in s
  {
    if s != [] {
      var init := s[..|s| - 1];
      RepeatedElements(init, m);
      forall k | 0 <= k < |Repeated(s, m)|
        ensures Repeated(s, m)[k] in s
      {
        if k < |Repeated(init, m)| {
          assert Repeated(s, m)[k] == Repeated(init, m)[k];
          assert Repeated(init, m)[k] in init;
        } else {
          assert Repeated(s, m)[k] == s[|s| - 1];
        }
      }
    }
  }

  /** The list before shuffling: the single-loan customers, each double-loan
      customer twice in a row, each triple-loan customer three times. */
  function LoanList(singles: seq<int>, doubles: seq<int>, triples: seq<int>): (list: seq<int>)
    ensures |list| == |singles| + 2 * |doubles| + 3 * |triples|
  {
    singles + Repeated(doubles, 2) + Repeated(triples, 3)
  }

  /** The three append/extend loops. */
  method BuildLoanList(singles: seq<int>, doubles: seq<int>, triples: seq<int>) returns (list: seq<int>)
    ensures list == LoanList(singles, doubles, triples)
  {
    list := [];
    for i := 0 to |singles|
      invariant list == singles[..i]
    {
      list := list + [singles[i]];
    }
    assert singles[..|singles|] == singles;
    for i := 0 to |doubles|
      invariant list == singles + Repeated(doubles[..i], 2)
    {
      assert doubles[..i + 1][..i] == doubles[..i];
      list := list + [doubles[i], doubles[i]];
    }
    assert doubles[..|doubles|] == doubles;
    for i := 0 to |triples|
      invariant list == singles + Repeated(doubles, 2) + Repeated(triples[..i], 3)
    {
      assert triples[..i + 1][..i] == triples[..i];
      list := list + [triples[i], triples[i], triples[i]];
    }
    assert triples[..|triples|] == triples;
  }

  /** The list holds each single-loan customer once, each double-loan customer
      twice and each triple-loan customer three times, and nothing else. */
  lemma LoanListCounts(singles: seq<int>, doubles: seq<int>, triples: seq<int>)
    ensures multiset(LoanList(singles, doubles, triples))
      == multiset(singles) + multiset(doubles) + multiset(doubles)
         + multiset(triples) + multiset(triples) + multiset(triples)
  {
    var l := LoanList(singles, doubles, triples);
    assert multiset(l) == multiset(singles) + multiset(Repeated(doubles, 2)) + multiset(Repeated(triples, 3));
    RepeatedCounts(doubles, 2);
    RepeatedCounts(triples, 3);
    TimesSmall(multiset(doubles));
    TimesSmall(multiset(triples));
  }

  /** The list length `c1 + 2 * (c2 / 2) + 3 * (c3 / 3)` equals the number of
      loans exactly when the double pool is even and the triple pool a
      multiple of three. */
  lemma PoolsFillList(loans: nat)
    ensures TriplePool(loans) >= 0
    ensures SinglePool(loans) + 2 * (DoublePool(loans) / 2) + 3 * (TriplePool(loans) / 3) == loans
      <==> DoublePool(loans) % 2 == 0 && TriplePool(loans) % 3 == 0
  {
  }

  /** For the 400000 loans of the run the pools are 240000, 100000 and 60000,
      and the list has exactly 400000 entries. */
  lemma PoolsForLoanRecords()
    ensures SinglePool(LoanRecords) == 240000
    ensures DoublePool(LoanRecords) == 100000
    ensures TriplePool(LoanRecords) == 60000
    ensures SinglePool(LoanRecords) + 2 * (DoublePool(LoanRecords) / 2) + 3 * (TriplePool(LoanRecords) / 3) == LoanRecords
  {
    PoolsFillList(LoanRecords);
  }

  // ---------------------------------------------------------------------
  // The in-place shuffle

  function Swap(s: seq<int>, i: nat, j: nat): (r: seq<int>)
    requires i < |s| && j < |s|
    ensures |r| == |s|
  {
    s[i := s[j]][j := s[i]]
  }

  /** The list after the Fisher-Yates steps for positions `hi - 1` down to 1:
      step `i` swaps position `i` with the drawn position `js[i]` (at most `i`). */
  function Shuffled(s: seq<int>, js: seq<int>, hi: nat): (r: seq<int>)
    requires hi <= |s| && |js| == |s|
    requires forall i :: 0 <= i < |js| ==> 0 <= js[i] <= i
    ensures |r| == |s|
    decreases hi
  {
    if hi <= 1 then s else Shuffled(Swap(s, hi - 1, js[hi - 1]), js, hi - 1)
  }

  /** `random.shuffle`: walks the list from the end, swapping each position
      with a drawn position at or before it. */
  method Shuffle(a: array<int>, js: seq<int>)
    requires |js| == a.Length
    requires forall i :: 0 <= i < |js| ==> 0 <= js[i] <= i
    modifies a
    ensures a[..] == Shuffled(old(a[..]), js, a.Length)
  {
    var i := a.Length;
    while i > 1
      invariant 0 <= i <= a.Length
      invariant Shuffled(a[..], js, i) == Shuffled(old(a[..]), js, a.Length)
    {
      i := i - 1;
      var j := js[i];
      a[i], a[j] := a[j], a[i];
    }
  }

  /** Shuffling is a permutation. */
  lemma {:induction false} ShuffledIsPermutation(s: seq<int>, js: seq<int>, hi: nat)
    requires hi <= |s| && |js| == |s|
    requires forall i :: 0 <= i < |js| ==> 0 <= js[i] <= i
    ensures multiset(Shuffled(s, js, hi)) == multiset(s)
    decreases hi
  {
    if hi > 1 {
      var t := Swap(s, hi - 1, js[hi - 1]);
      ShuffledIsPermutation(t, js, hi - 1);
      SwapIsPermutation(s, hi - 1, js[hi - 1]);
    }
  }

  lemma SwapIsPermutation(s: seq<int>, i: nat, j: nat)
    requires i < |s| && j < |s|
    ensures multiset(Swap(s, i, j)) == multiset(s)
  {
    if i != j {
      var t := s[i := s[j]];
      assert multiset(t) == multiset(s) - multiset{s[i]} + multiset{s[j]};
      assert multiset(t[j := s[i]]) == multiset(t) - multiset{t[j]} + multiset{s[i]};
    }
  }

  /** The customer id of every loan: the list built from the pools, shuffled
      in place, then cut to `loans` entries. */
  method CreateCustomerLoanPairs(loans: nat, singles: seq<int>, doubles: seq<int>, triples: seq<int>, js: seq<int>)
    returns (pairs: seq<int>)
    requires |js| == |singles| + 2 * |doubles| + 3 * |triples|
    requires forall i :: 0 <= i < |js| ==> 0 <= js[i] <= i
    ensures |LoanList(singles, doubles, triples)| == |js|
    ensures pairs == Shuffled(LoanList(singles, doubles, triples), js, |js|)[..Min(|js|, loans)]
  {
    var list := BuildLoanList(singles, doubles, triples);
    var a := new int[|list|](i requires 0 <= i < |list| => list[i]);
    assert a[..] == list;
    Shuffle(a, js);
    pairs := a[..Min(a.Length, loans)];
  }

  /** With pools of the run's sizes the cut keeps the whole shuffled list:
      there are exactly `loans` customer ids, the multiset of the pools, each
      one drawn from 1..customers. */
  lemma CustomerLoanPairsFacts(loans: nat, customers: nat, singles: seq<int>, doubles: seq<int>, triples: seq<int>, js: seq<int>)
    requires |singles| == SinglePool(loans) && |doubles| == DoublePool(loans) / 2 && |triples| == TriplePool(loans) / 3
    requires DoublePool(loans) % 2 == 0 && TriplePool(loans) % 3 == 0
    requires |js| == |singles| + 2 * |doubles| + 3 * |triples|
    requires forall i :: 0 <= i < |js| ==> 0 <= js[i] <= i
    requires forall i :: 0 <= i < |singles| ==> 1 <= singles[i] <= customers
    requires forall i :: 0 <= i < |doubles| ==> 1 <= doubles[i] <= customers
    requires forall i :: 0 <= i < |triples| ==> 1 <= triples[i] <= customers
    ensures var list := LoanList(singles, doubles, triples);
      var pairs := Shuffled(list, js, |js|)[..Min(|js|, loans)];
      && |pairs| == loans
      && multiset(pairs) == multiset(list)
      && forall i :: 0 <= i < |pairs| ==> 1 <= pairs[i] <= customers
  {
    PoolsFillList(loans);
    var list := LoanList(singles, doubles, triples);
    var shuffled := Shuffled(list, js, |js|);
    ShuffledIsPermutation(list, js, |js|);
    assert shuffled[..Min(|js|, loans)] == shuffled;
    LoanListInRange(singles, doubles, triples, customers);
    PermutationKeepsRange(list, shuffled, customers);
  }

  lemma LoanListInRange(singles: seq<int>, doubles: seq<int>, triples: seq<int>, customers: int)
    requires forall i :: 0 <= i < |singles| ==> 1 <= singles[i] <= customers
    requires forall i :: 0 <= i < |doubles| ==> 1 <= doubles[i] <= customers
    requires forall i :: 0 <= i < |triples| ==> 1 <= triples[i] <= customers
    ensures var list := LoanList(singles, doubles, triples);
      forall k :: 0 <= k < |list| ==> 1 <= list[k] <= customers
  {
    var list := LoanList(singles, doubles, triples);
    var d2, t3 := Repeated(doubles, 2), Repeated(triples, 3);
    RepeatedElements(doubles, 2);
    RepeatedElements(triples, 3);
    forall k | 0 <= k < |list|
      ensures 1 <= list[k] <= customers
    {
      if k < |singles| {
        assert list[k] == singles[k];
      } else if k < |singles| + |d2| {
        assert list[k] == d2[k - |singles|];
        var j :| 0 <= j < |doubles| && doubles[j] == list[k];
      } else {
        assert list[k] == t3[k - |singles| - |d2|];
        var j :| 0 <= j < |triples| && triples[j] == list[k];
      }
    }
  }

  lemma PermutationKeepsRange(a: seq<int>, b: seq<int>, customers: int)
    requires multiset(a) == multiset(b)
    requires forall k :: 0 <= k < |a| ==> 1 <= a[k] <= customers
    ensures forall k :: 0 <= k < |b| ==> 1 <= b[k] <= customers
  {
    forall k | 0 <= k < |b|
      ensures 1 <= b[k] <= customers
    {
      assert b[k] in multiset(b);
      assert b[k] in a;
      var j :| 0 <= j < |a| && a[j] == b[k];
    }
  }

  // ---------------------------------------------------------------------
  // Per-loan rules

  datatype LoanStatus = Defaulted | Overdue | Closed | Active

  datatype Purpose = CourseFees | LivingExpenses | CourseFeesAndLiving | EquipmentAndBooks

  const Tenures: seq<int> := [36, 48, 60, 72, 84, 96]

  /** `0.08`, raised by 0.15 below a score of 600 and by 0.08 from 600 to 699. */
  function DefaultProbability(cibil: int): real
  {
    0.08 + (if cibil < 600 then 0.15 else if cibil < 700 then 0.08 else 0.0)
  }

  /** The status chain: defaulted below the default probability, overdue in
      the next 0.06, then closed once as many months have passed as the
      tenure, otherwise active. */
  function LoanStatusOf(roll: real, defaultProb: real, monthsSince: int, tenure: int): LoanStatus
  {
    if roll < defaultProb then Defaulted
    else if roll < defaultProb + 0.06 then Overdue
    else if monthsSince >= tenure then Closed
    else Active
  }

  /** The interest-rate range of a score band. */
  function RateLow(cibil: int): real
  {
    if cibil >= 750 then 8.5 else if cibil >= 650 then 10.5 else 12.5
  }

  function RateHigh(cibil: int): real
  {
    if cibil >= 750 then 11.5 else if cibil >= 650 then 14.0 else 17.5
  }

  /** `max(1, days // 30)` for the whole months between two day numbers
      (floor division, which Dafny's `/` is for a positive divisor). */
  function MonthsSince(today: int, from: int): (months: int)
  {
    Max(1, (today - from) / 30)
  }

  function Max(a: int, b: int): int
  {
    if a >= b then a else b
  }

  datatype LoanDraw = LoanDraw(
    institutionId: int,
    baseAmount: real,
    livingExpenses: real,
    cibil: int,
    interestRate: real,
    tenure: int,
    daysBack: int,
    disbursementDelay: int,
    statusRoll: real,
    purpose: Purpose)

  predicate ValidLoanDraw(d: LoanDraw, institutions: nat)
  {
    && 1 <= d.institutionId <= institutions
    && 150000.0 <= d.baseAmount <= 800000.0
    && 50000.0 <= d.livingExpenses <= 250000.0
    && 300 <= d.cibil <= 900
    && RateLow(d.cibil) <= d.interestRate <= RateHigh(d.cibil)
    && d.tenure in Tenures
    && 60 <= d.daysBack <= 1460
    && 7 <= d.disbursementDelay <= 45
    && 0.0 <= d.statusRoll < 1.0
  }

  datatype Loan = Loan(
    loanId: int,
    customerId: int,
    institutionId: int,
    loanAmount: real,
    status: LoanStatus,
    interestRate: real,
    tenureMonths: int,
    applicationDate: int,
    disbursementDate: int,
    maturityDate: int,
    purpose: Purpose)

  function LoanRow(loanId: int, customerId: int, d: LoanDraw, today: int): Loan
  {
    var applicationDate := today - d.daysBack;
    var disbursementDate := applicationDate + d.disbursementDelay;
    var maturityDate := disbursementDate + d.tenure * 30;
    var status := LoanStatusOf(d.statusRoll, DefaultProbability(d.cibil),
                               MonthsSince(today, disbursementDate), d.tenure);
    Loan(loanId, customerId, d.institutionId, d.baseAmount + d.livingExpenses, status,
         d.interestRate, d.tenure, applicationDate, disbursementDate, maturityDate, d.purpose)
  }

  /** Generates the loans batch by batch over `range(0, n, batchSize)`; loan
      ids come from a counter started at 1 and bumped after every row, so the
      loan at position i has id i + 1 and the customer at position i of the
      list. */
  method CreateLoans(n: nat, batchSize: nat, pairs: seq<int>, draws: seq<LoanDraw>, today: int)
    returns (rows: seq<Loan>, ghost batches: seq<nat>)
    requires batchSize > 0
    requires |pairs| == n && |draws| == n
    ensures |rows| == n
    ensures forall i :: 0 <= i < n ==> rows[i] == LoanRow(i + 1, pairs[i], draws[i], today)
    ensures forall i :: 0 <= i < n ==> rows[i].loanId == i + 1 && rows[i].customerId == pairs[i]
    ensures batches == BatchStarts(0, n, batchSize)
  {
    rows := [];
    var loanId := 1;
    var batchStart: nat := 0;
    batches := [];
    while batchStart < n
      invariant |rows| == Min(batchStart, n)
      invariant loanId == |rows| + 1
      invariant forall i :: 0 <= i < |rows| ==> rows[i] == LoanRow(i + 1, pairs[i], draws[i], today)
      invariant batches + BatchStarts(batchStart, n, batchSize) == BatchStarts(0, n, batchSize)
      decreases n - batchStart
    {
      var batchEnd := Min(batchStart + batchSize, n);
      for i := batchStart to batchEnd
        invariant |rows| == i
        invariant loanId == i + 1
        invariant forall k :: 0 <= k < |rows| ==> rows[k] == LoanRow(k + 1, pairs[k], draws[k], today)
      {
        var customerId := pairs[i];
        rows := rows + [LoanRow(loanId, customerId, draws[i], today)];
        loanId := loanId + 1;
      }
      NextBatch(batches, batchStart, n, batchSize);
      batches := batches + [batchStart];
      batchStart := batchStart + batchSize;
    }
  }

  /** The whole loan step on the run's sizes: the customer list is built from
      pools of 240000, 50000 and 20000 drawn customers, shuffled and cut, then
      one loan per list position is generated. The cut keeps the whole list,
      so every position the loan loop reads exists: loan i is built from the
      i-th customer of the shuffled list and the i-th draw. Loan ids are
      1..400000, the loans' customer ids are the pools' customers with
      multiplicity, and every loan references a drawn institution and has
      consistent dates. */
  method CreateLoansTable(customers: nat, institutions: nat, singles: seq<int>, doubles: seq<int>, triples: seq<int>,
                          js: seq<int>, draws: seq<LoanDraw>, today: int)
    returns (rows: seq<Loan>)
    requires |singles| == SinglePool(LoanRecords) && |doubles| == DoublePool(LoanRecords) / 2
    requires |triples| == TriplePool(LoanRecords) / 3
    requires forall i :: 0 <= i < |singles| ==> 1 <= singles[i] <= customers
    requires forall i :: 0 <= i < |doubles| ==> 1 <= doubles[i] <= customers
    requires forall i :: 0 <= i < |triples| ==> 1 <= triples[i] <= customers
    requires |js| == |singles| + 2 * |doubles| + 3 * |triples|
    requires forall i :: 0 <= i < |js| ==> 0 <= js[i] <= i
    requires |draws| == LoanRecords
    requires forall i :: 0 <= i < |draws| ==> ValidLoanDraw(draws[i], institutions)
    ensures |rows| == LoanRecords
    ensures |LoanList(singles, doubles, triples)| == |js| == LoanRecords
    ensures forall i :: 0 <= i < |rows| ==>
      rows[i] == LoanRow(i + 1, Shuffled(LoanList(singles, doubles, triples), js, |js|)[i], draws[i], today)
    ensures forall i :: 0 <= i < |rows| ==> rows[i].loanId == i + 1 && 1 <= rows[i].customerId <= customers
    ensures multiset(seq(|rows|, i requires 0 <= i < |rows| => rows[i].customerId))
      == multiset(LoanList(singles, doubles, triples))
    ensures forall i :: 0 <= i < |rows| ==>
      && 1 <= rows[i].institutionId <= institutions
      && rows[i].applicationDate < rows[i].disbursementDate < today
      && rows[i].maturityDate == rows[i].disbursementDate + 30 * rows[i].tenureMonths
  {
    PoolsForLoanRecords();
    var pairs := CreateCustomerLoanPairs(LoanRecords, singles, doubles, triples, js);
    CustomerLoanPairsFacts(LoanRecords, customers, singles, doubles, triples, js);
    ghost var batches;
    rows, batches := CreateLoans(LoanRecords, BatchSize, pairs, draws, today);
    assert seq(|rows|, i requires 0 <= i < |rows| => rows[i].customerId) == pairs;
    forall i | 0 <= i < |rows|
      ensures && 1 <= rows[i].institutionId <= institutions
              && rows[i].applicationDate < rows[i].disbursementDate < today
              && rows[i].maturityDate == rows[i].disbursementDate + 30 * rows[i].tenureMonths
    {
      LoanDates(i + 1, pairs[i], draws[i], today, institutions);
      LoanAmountAndRate(i + 1, pairs[i], draws[i], today, institutions);
    }
  }

  /** The default probability is 0.23 below 600, 0.16 from 600 to 699 and
      0.08 from 700 on. */
  lemma DefaultProbabilityBands(cibil: int)
    ensures cibil < 600 ==> DefaultProbability(cibil) == 0.23
    ensures 600 <= cibil < 700 ==> DefaultProbability(cibil) == 0.16
    ensures cibil >= 700 ==> DefaultProbability(cibil) == 0.08
  {
  }

  /** Each status in terms of the roll, the probability and the months. */
  lemma LoanStatusRule(roll: real, p: real, monthsSince: int, tenure: int)
    ensures LoanStatusOf(roll, p, monthsSince, tenure) == Defaulted <==> roll < p
    ensures LoanStatusOf(roll, p, monthsSince, tenure) == Overdue <==> p <= roll < p + 0.06
    ensures LoanStatusOf(roll, p, monthsSince, tenure) == Closed <==> p + 0.06 <= roll && monthsSince >= tenure
    ensures LoanStatusOf(roll, p, monthsSince, tenure) == Active <==> p + 0.06 <= roll && monthsSince < tenure
  {
  }

  lemma DivLowerBound(x: int, t: int)
    requires x >= 0 && t >= 0
    ensures x / 30 >= t <==> x >= 30 * t
  {
    var q, r := x / 30, x % 30;
    assert x == 30 * q + r;
  }

  /** The dates of a loan: disbursement 7..45 days after application, which
      lies 60..1460 days before today; maturity 30 days per month of tenure
      after disbursement; at least one month counted since disbursement. */
  lemma LoanDates(loanId: int, customerId: int, d: LoanDraw, today: int, institutions: nat)
    requires ValidLoanDraw(d, institutions)
    ensures var r := LoanRow(loanId, customerId, d, today);
      && today - 1460 <= r.applicationDate <= today - 60
      && r.applicationDate + 7 <= r.disbursementDate <= r.applicationDate + 45
      && r.disbursementDate < today
      && r.maturityDate == r.disbursementDate + 30 * r.tenureMonths
      && r.tenureMonths in {36, 48, 60, 72, 84, 96}
      && MonthsSince(today, r.disbursementDate) >= 1
  {
  }

  /** Outside the defaulted and overdue bands, a loan is closed exactly when
      it has matured by today. Since a loan is disbursed at most 1453 days ago,
      only 36- and 48-month loans can ever be closed. */
  lemma ClosedMeansMatured(loanId: int, customerId: int, d: LoanDraw, today: int, institutions: nat)
    requires ValidLoanDraw(d, institutions)
    ensures var r := LoanRow(loanId, customerId, d, today);
      && (r.status == Closed <==>
           DefaultProbability(d.cibil) + 0.06 <= d.statusRoll && r.maturityDate <= today)
      && (r.status == Closed ==> r.tenureMonths in {36, 48})
  {
    var r := LoanRow(loanId, customerId, d, today);
    var elapsed := today - r.disbursementDate;
    DivLowerBound(elapsed, d.tenure);
    DivLowerBound(elapsed, 60);
    assert elapsed <= 1453;
  }

  /** The loan amount (base plus living expenses) lies in 2..10.5 lakh, and
      the rate in the band of the drawn score, within 8.5..17.5. */
  lemma LoanAmountAndRate(loanId: int, customerId: int, d: LoanDraw, today: int, institutions: nat)
    requires ValidLoanDraw(d, institutions)
    ensures var r := LoanRow(loanId, customerId, d, today);
      && 200000.0 <= r.loanAmount <= 1050000.0
      && 8.5 <= r.interestRate <= 17.5
      && 1 <= r.institutionId <= institutions
  {
  }
}
