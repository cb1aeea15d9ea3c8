/**
  The `defaults_collections` fact table: one row per loop index 1..n. The
  collection status is picked from options that depend on the band of the
  days overdue; the legal-notice flag, the last contact date and the
  recovered amount follow from the status and the draws.
 */
module Defaults {
  import opened Batching
  import opened Values

  datatype CollectionStatus = Active | LegalAction | WrittenOff | Settled

  /** The four recovery rates, all drawn for every row; the status picks one. */
  datatype RecoveryRates = RecoveryRates(settled: real, active: real, legalAction: real, writtenOff: real)

  /** Everything the generator draws for one default. `statusIndex` is the
      position, among the options of the row's band, of the status picked. */
  datatype DefaultDraw = DefaultDraw(
    customerId: int,
    loanId: int,
    daysBack: int,
    defaultAmount: real,
    statusIndex: nat,
    contactAttempts: int,
    contactDaysAgo: int,
    legalRoll: real,
    rates: RecoveryRates,
    agentId: int)

  datatype DefaultRecord = DefaultRecord(
    defaultId: int,
    customerId: int,
    loanId: int,
    defaultDate: int,
    defaultAmount: real,
    daysOverdue: int,
    collectionStatus: CollectionStatus,
    lastContactDate: int,
    contactAttempts: int,
    legalNoticeSent: bool,
    recoveryAmount: real,
    collectionAgentId: int)

  /** The statuses a row may get, by band of days overdue. */
  function StatusOptions(daysOverdue: int): (options: seq<CollectionStatus>)
    ensures |options| >= 1
  {
    if daysOverdue > 730 then [WrittenOff, LegalAction, Settled]
    else if daysOverdue > 365 then [LegalAction, Active, WrittenOff]
    else if daysOverdue > 180 then [Active, LegalAction]
    else [Active]
  }

  function RateFor(rates: RecoveryRates, s: CollectionStatus): real
  {
    match s
    case Settled => rates.settled
    case Active => rates.active
    case LegalAction => rates.legalAction
    case WrittenOff => rates.writtenOff
  }

  predicate RatesInRange(rates: RecoveryRates)
  {
    && 0.4 <= rates.settled <= 0.9
    && 0.0 <= rates.active <= 0.5
    && 0.1 <= rates.legalAction <= 0.6
    && 0.0 <= rates.writtenOff <= 0.3
  }

  predicate ValidDefaultDraw(d: DefaultDraw, customers: nat, loans: nat)
  {
    && 1 <= d.customerId <= customers
    && 1 <= d.loanId <= loans
    && 30 <= d.daysBack <= 1095
    && 100000.0 <= d.defaultAmount <= 800000.0
    && d.statusIndex < |StatusOptions(d.daysBack)|
    && 5 <= d.contactAttempts <= 50
    && 1 <= d.contactDaysAgo <= Min(d.daysBack, 90)
    && 0.0 <= d.legalRoll < 1.0
    && RatesInRange(d.rates)
    && 1 <= d.agentId <= 100
  }

  /** Legal notice: always for legal action and written-off cases, otherwise
      for 40% of the cases more than 180 days overdue. */
  function LegalNoticeSent(status: CollectionStatus, daysOverdue: int, roll: real): bool
  {
    status in {LegalAction, WrittenOff} || (daysOverdue > 180 && roll < 0.4)
  }

  function DefaultRow(defaultId: int, d: DefaultDraw, today: int): DefaultRecord
    requires d.statusIndex < |StatusOptions(d.daysBack)|
  {
    var defaultDate := today - d.daysBack;
    var daysOverdue := today - defaultDate;
    var status := StatusOptions(daysOverdue)[d.statusIndex];
    DefaultRecord(
      defaultId, d.customerId, d.loanId, defaultDate, d.defaultAmount, daysOverdue, status,
      today - d.contactDaysAgo, d.contactAttempts,
      LegalNoticeSent(status, daysOverdue, d.legalRoll),
      d.defaultAmount * RateFor(d.rates, status),
      d.agentId)
  }

  /** One default per index `i` in 1..n, with `default_id` i. */
  method CreateDefaultsCollections(n: nat, draws: seq<DefaultDraw>, today: int) returns (rows: seq<DefaultRecord>)
    requires |draws| == n
    requires forall k :: 0 <= k < n ==> draws[k].statusIndex < |StatusOptions(draws[k].daysBack)|
    ensures |rows| == n
    ensures forall k :: 0 <= k < n ==> rows[k] == DefaultRow(k + 1, draws[k], today)
    ensures forall k :: 0 <= k < n ==> rows[k].defaultId == k + 1
  {
    rows := [];
    for i := 1 to n + 1
      invariant |rows| == i - 1
      invariant forall k :: 0 <= k < |rows| ==> rows[k] == DefaultRow(k + 1, draws[k], today)
    {
      rows := rows + [DefaultRow(i, draws[i - 1], today)];
    }
  }

  /** The days overdue are the drawn days back, 30..1095, and the status is
      one of the options of its band: settled only beyond 730 days, written
      off only beyond 365, legal action only beyond 180, and active whenever
      the row is at most 180 days overdue. */
  lemma CollectionBanding(defaultId: int, d: DefaultDraw, today: int, customers: nat, loans: nat)
    requires ValidDefaultDraw(d, customers, loans)
    ensures var r := DefaultRow(defaultId, d, today);
      && r.daysOverdue == d.daysBack && 30 <= r.daysOverdue <= 1095
      && r.collectionStatus in StatusOptions(r.daysOverdue)
      && (r.collectionStatus == Settled ==> r.daysOverdue > 730)
      && (r.collectionStatus == WrittenOff ==> r.daysOverdue > 365)
      && (r.collectionStatus == LegalAction ==> r.daysOverdue > 180)
      && (r.daysOverdue <= 180 ==> r.collectionStatus == Active)
  {
  }

  /** The contact draw range 1..min(days overdue, 90) is never empty, so the
      last contact falls within the 90 days before today and not before the
      default date. */
  lemma ContactWindow(defaultId: int, d: DefaultDraw, today: int, customers: nat, loans: nat)
    requires ValidDefaultDraw(d, customers, loans)
    ensures Min(d.daysBack, 90) >= 1
    ensures var r := DefaultRow(defaultId, d, today);
      && r.defaultDate <= r.lastContactDate
      && today - 90 <= r.lastContactDate <= today - 1
  {
  }

  /** A notice is always sent for legal action and write-offs, never for rows
      at most 180 days overdue, and otherwise exactly when the roll is below
      0.4. */
  lemma LegalNoticeRule(defaultId: int, d: DefaultDraw, today: int, customers: nat, loans: nat)
    requires ValidDefaultDraw(d, customers, loans)
    ensures var r := DefaultRow(defaultId, d, today);
      && (r.collectionStatus in {LegalAction, WrittenOff} ==> r.legalNoticeSent)
      && (r.daysOverdue <= 180 ==> !r.legalNoticeSent)
      && (r.daysOverdue > 180 && r.collectionStatus !in {LegalAction, WrittenOff} ==>
            (r.legalNoticeSent <==> d.legalRoll < 0.4))
  {
  }

  /** Whatever the status, the recovery rate is in 0..0.9, so the recovered
      amount is between nothing and the defaulted amount. */
  lemma RecoveryBounded(defaultId: int, d: DefaultDraw, today: int, customers: nat, loans: nat)
    requires ValidDefaultDraw(d, customers, loans)
    ensures var r := DefaultRow(defaultId, d, today);
      0.0 <= r.recoveryAmount <= 0.9 * r.defaultAmount <= r.defaultAmount
  {
    var r := DefaultRow(defaultId, d, today);
    var rate := RateFor(d.rates, r.collectionStatus);
    assert 0.0 <= rate <= 0.9;
    MulMonotone(d.defaultAmount, d.defaultAmount, rate, 0.9);
    MulMonotone(0.0, d.defaultAmount, 0.0, rate);
  }
}
