/**
  The `payments` fact table: one row per loop index 1..n. Each payment
  references a drawn loan id, has an amount floored at 1000, and splits into
  interest and principal only when it succeeded.
 */
module Payments {
  import opened Values

  datatype PaymentMethod = Upi | NetBanking | DebitCard | CreditCard | Cheque | Neft

  datatype PaymentStatus = Success | Failed | Pending

  /** Everything the generator draws for one payment. A draw the generator
      would not make on a given path (the partial-payment factor of a full
      payment, say) is present but unused. `failure` is the status picked
      among Failed and Pending when the payment does not succeed. */
  datatype PaymentDraw = PaymentDraw(
    loanId: int,
    daysBack: int,
    baseEmi: real,
    partialRoll: real,
    partialFactor: real,
    jitter: real,
    paymentMethod: PaymentMethod,
    statusRoll: real,
    failure: PaymentStatus,
    interestShare: real,
    outstanding: real,
    lateFeeRoll: real,
    lateFee: real)

  datatype Payment = Payment(
    paymentId: int,
    loanId: int,
    paymentDate: int,
    paymentAmount: real,
    paymentMethod: PaymentMethod,
    paymentStatus: PaymentStatus,
    lateFee: real,
    principalComponent: real,
    interestComponent: real,
    outstandingBalance: real)

  function StatusOf(d: PaymentDraw): PaymentStatus
  {
    if d.statusRoll < 0.92 then Success else d.failure
  }

  predicate ValidPaymentDraw(d: PaymentDraw, loans: nat)
  {
    && 1 <= d.loanId <= loans
    && 1 <= d.daysBack <= 730
    && 5000.0 <= d.baseEmi <= 50000.0
    && 0.0 <= d.partialRoll < 1.0
    && 0.3 <= d.partialFactor <= 0.8
    && -500.0 <= d.jitter <= 500.0
    && 0.0 <= d.statusRoll < 1.0
    && d.failure != Success
    && 0.3 <= d.interestShare <= 0.7
    && (if StatusOf(d) == Success then 50000.0 <= d.outstanding <= 500000.0
        else 100000.0 <= d.outstanding <= 600000.0)
    && 0.0 <= d.lateFeeRoll < 1.0
    && 0.0 <= d.lateFee <= 1000.0
  }

  /** The amount before the floor: 5% partial payments pay a fraction of the
      EMI, the others the EMI give or take up to 500. */
  function RawAmount(d: PaymentDraw): real
  {
    if d.partialRoll < 0.05 then d.baseEmi * d.partialFactor else d.baseEmi + d.jitter
  }

  /** `max(1000, amount)` */
  function PaymentAmount(d: PaymentDraw): real
  {
    RealMax(1000.0, RawAmount(d))
  }

  function PaymentRow(paymentId: int, d: PaymentDraw, today: int): Payment
  {
    var amount := PaymentAmount(d);
    var status := StatusOf(d);
    if status == Success then
      var interest := amount * d.interestShare;
      Payment(paymentId, d.loanId, today - d.daysBack, amount, d.paymentMethod, status,
              if d.lateFeeRoll < 0.08 then d.lateFee else 0.0,
              amount - interest, interest, d.outstanding)
    else
      Payment(paymentId, d.loanId, today - d.daysBack, amount, d.paymentMethod, status,
              0.0, 0.0, 0.0, d.outstanding)
  }

  /** One payment per index `i` in 1..n, with `payment_id` i. */
  method CreatePayments(n: nat, draws: seq<PaymentDraw>, today: int) returns (rows: seq<Payment>)
    requires |draws| == n
    ensures |rows| == n
    ensures forall k :: 0 <= k < n ==> rows[k] == PaymentRow(k + 1, draws[k], today)
    ensures forall k :: 0 <= k < n ==> rows[k].paymentId == k + 1
  {
    rows := [];
    for i := 1 to n + 1
      invariant |rows| == i - 1
      invariant forall k :: 0 <= k < |rows| ==> rows[k] == PaymentRow(k + 1, draws[k], today)
    {
      rows := rows + [PaymentRow(i, draws[i - 1], today)];
    }
  }

  /** Every amount is at least 1000; on the draws the generator makes the
      amount before the floor is already at least 1500, so the floor never
      changes it. */
  lemma PaymentAmountFloor(d: PaymentDraw, loans: nat)
    ensures PaymentAmount(d) >= 1000.0
    ensures ValidPaymentDraw(d, loans) ==> RawAmount(d) >= 1500.0 && PaymentAmount(d) == RawAmount(d)
  {
    if ValidPaymentDraw(d, loans) && d.partialRoll < 0.05 {
      MulMonotone(5000.0, d.baseEmi, 0.3, d.partialFactor);
    }
  }

  /** A payment that did not succeed carries no interest, principal or late
      fee; a successful one splits its whole amount into principal and
      interest, 30% to 70% of it interest, and a late fee of at most 1000
      only when the late-fee roll is below 0.08. */
  lemma PaymentComponents(paymentId: int, d: PaymentDraw, today: int, loans: nat)
    requires ValidPaymentDraw(d, loans)
    ensures var r := PaymentRow(paymentId, d, today);
      && (r.paymentStatus == Success <==> d.statusRoll < 0.92)
      && (r.paymentStatus != Success ==>
            r.interestComponent == 0.0 && r.principalComponent == 0.0 && r.lateFee == 0.0)
      && (r.paymentStatus == Success ==>
            && r.principalComponent + r.interestComponent == r.paymentAmount
            && 0.3 * r.paymentAmount <= r.interestComponent <= 0.7 * r.paymentAmount
            && r.principalComponent > 0.0
            && 0.0 <= r.lateFee <= 1000.0
            && (r.lateFee > 0.0 ==> d.lateFeeRoll < 0.08))
  {
    var r := PaymentRow(paymentId, d, today);
    if StatusOf(d) == Success {
      var a := PaymentAmount(d);
      PaymentAmountFloor(d, loans);
      MulMonotone(a, a, 0.3, d.interestShare);
      MulMonotone(a, a, d.interestShare, 0.7);
      assert 0.3 * a == a * 0.3 && 0.7 * a == a * 0.7;
      assert r.interestComponent == a * d.interestShare;
      assert r.paymentAmount == a;
      assert 0.3 * a <= a * d.interestShare;
      assert a * d.interestShare <= 0.7 * a;
      assert r.principalComponent == a - a * d.interestShare;
    }
  }

  /** The payment date lies within the two years before today, and the
      outstanding balance in the range of the payment's status. */
  lemma PaymentDateAndBalance(paymentId: int, d: PaymentDraw, today: int, loans: nat)
    requires ValidPaymentDraw(d, loans)
    ensures var r := PaymentRow(paymentId, d, today);
      && today - 730 <= r.paymentDate <= today - 1
      && 1 <= r.loanId <= loans
      && (r.paymentStatus == Success ==> 50000.0 <= r.outstandingBalance <= 500000.0)
      && (r.paymentStatus != Success ==> 100000.0 <= r.outstandingBalance <= 600000.0)
  {
  }
}
