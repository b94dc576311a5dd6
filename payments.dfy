/**
 * Payment reconciliation on the agreement and finance screens
 * (JobsList.jsx: offerTotalValue, chequeTotal, paymentTotal, avgChequeDays,
 * the cheque list editor, the agreement-completion guards and the
 * finance-closing balance).
 */
module Payments {
  import opened Wrappers
  import opened Jobs

  // ---------------------------------------------------------------------------
  // Totals
  // ---------------------------------------------------------------------------

  /** `chequeLines.reduce((sum, c) => sum + c.amount, 0)`. */
  function ChequeTotal(lines: seq<ChequeLine>): int {
    if lines == [] then 0 else lines[0].amount + ChequeTotal(lines[1..])
  }

  /** Cheques of non-negative amounts never total below 0 nor below any one of them. */
  lemma {:induction false} ChequeTotalBounds(lines: seq<ChequeLine>)
    requires AmountsNonNegative(lines)
    ensures ChequeTotal(lines) >= 0
    ensures forall i :: 0 <= i < |lines| ==> lines[i].amount <= ChequeTotal(lines)
  {
    if lines != [] {
      assert AmountsNonNegative(lines[1..]) by {
        forall i | 0 <= i < |lines[1..]|
          ensures lines[1..][i].amount >= 0
        {
          assert lines[1..][i] == lines[i + 1];
        }
      }
      ChequeTotalBounds(lines[1..]);
      forall i | 0 <= i < |lines|
        ensures lines[i].amount <= ChequeTotal(lines)
      {
        if i > 0 {
          assert lines[i] == lines[1..][i - 1];
        }
      }
    }
  }

  lemma {:induction false} ChequeTotalAppend(a: seq<ChequeLine>, b: seq<ChequeLine>)
    ensures ChequeTotal(a + b) == ChequeTotal(a) + ChequeTotal(b)
  {
    if a == [] {
      assert a + b == b;
    } else {
      assert (a + b)[1..] == a[1..] + b;
      ChequeTotalAppend(a[1..], b);
    }
  }

  /** `paymentTotal`: cash + card + cheques + after delivery, as entered on the agreement screen. */
  function PaymentTotal(inp: Inputs): int {
    inp.payCash + inp.payCard + ChequeTotal(inp.chequeLines) + inp.payAfter
  }

  /** Each part of the plan counts once: more cash, card, after-delivery or one more cheque raises the total by that amount. */
  lemma PaymentTotalParts(inp: Inputs, a: int, c: ChequeLine)
    ensures PaymentTotal(inp.(payCash := inp.payCash + a)) == PaymentTotal(inp) + a
    ensures PaymentTotal(inp.(payCard := inp.payCard + a)) == PaymentTotal(inp) + a
    ensures PaymentTotal(inp.(payAfter := inp.payAfter + a)) == PaymentTotal(inp) + a
    ensures PaymentTotal(inp.(chequeLines := inp.chequeLines + [c])) == PaymentTotal(inp) + c.amount
  {
    ChequeTotalAppend(inp.chequeLines, [c]);
    assert ChequeTotal([c]) == c.amount + ChequeTotal([]);
  }

  /** `offerTotalValue`: the locally entered offer total when it is non-zero, else the job's. */
  function OfferTotalValue(job: Job, inp: Inputs): (t: int)
    ensures inp.offerTotal != 0 ==> t == inp.offerTotal
    ensures inp.offerTotal == 0 ==> t == job.offer.total
  {
    if inp.offerTotal != 0 then inp.offerTotal else job.offer.total
  }

  // ---------------------------------------------------------------------------
  // Cheque list editor
  // ---------------------------------------------------------------------------

  /** "+ Çek Ekle": a draft with amount 0 is ignored, any other draft is appended. */
  function AddCheque(lines: seq<ChequeLine>, draft: ChequeLine): (r: seq<ChequeLine>)
    ensures draft.amount == 0 ==> r == lines
    ensures draft.amount != 0 ==> r == lines + [draft]
    ensures ChequeTotal(r) == ChequeTotal(lines) + draft.amount
  {
    if draft.amount == 0 then lines
    else
      ChequeTotalAppend(lines, [draft]);
      lines + [draft]
  }

  /** The delete button of row `idx`: `chequeLines.filter((_, i) => i !== idx)`. */
  function RemoveChequeAt(lines: seq<ChequeLine>, idx: int): (r: seq<ChequeLine>)
    ensures 0 <= idx < |lines| ==> r == lines[..idx] + lines[idx + 1..]
    ensures !(0 <= idx < |lines|) ==> r == lines
    ensures ChequeTotal(r) == ChequeTotal(lines) - (if 0 <= idx < |lines| then lines[idx].amount else 0)
  {
    if 0 <= idx < |lines| then
      ChequeTotalAppend(lines[..idx], lines[idx..]);
      ChequeTotalAppend(lines[..idx], lines[idx + 1..]);
      assert lines == lines[..idx] + lines[idx..];
      assert lines[idx..][1..] == lines[idx + 1..];
      lines[..idx] + lines[idx + 1..]
    else lines
  }

  /** Deleting the cheque just added gives back the earlier list. */
  lemma RemoveUndoesAddCheque(lines: seq<ChequeLine>, draft: ChequeLine)
    requires draft.amount != 0
    ensures RemoveChequeAt(AddCheque(lines, draft), |lines|) == lines
  {
    assert (lines + [draft])[..|lines|] == lines;
  }

  // ---------------------------------------------------------------------------
  // Average cheque term
  // ---------------------------------------------------------------------------

  const DayMs := 86400000

  /** `Math.round(n / d)` for a positive divisor: the floor of n/d + 1/2. */
  function RoundDiv(n: int, d: int): int
    requires d > 0
  {
    (2 * n + d) / (2 * d)
  }

  /** Whole days from `now` to the cheque's due date, never negative; a cheque without a date is due now. */
  function ChequeDays(c: ChequeLine, now: int): (d: int)
    ensures d >= 0
  {
    Max(0, RoundDiv(c.due.GetOr(now) - now, DayMs))
  }

  function WeightedDays(lines: seq<ChequeLine>, now: int): int {
    if lines == [] then 0 else lines[0].amount * ChequeDays(lines[0], now) + WeightedDays(lines[1..], now)
  }

  /** `avgChequeDays`: the amount-weighted mean term of the cheques, rounded; 0 when the cheque total is not positive. */
  function AvgChequeDays(lines: seq<ChequeLine>, now: int): (r: int)
    ensures ChequeTotal(lines) <= 0 ==> r == 0
  {
    var total := ChequeTotal(lines);
    if total <= 0 then 0 else RoundDiv(WeightedDays(lines, now), total)
  }

  ghost predicate AmountsNonNegative(lines: seq<ChequeLine>) {
    forall i :: 0 <= i < |lines| ==> lines[i].amount >= 0
  }

  /** The longest term among the cheques (0 for none). */
  function MaxDays(lines: seq<ChequeLine>, now: int): (m: int)
    ensures m >= 0
    ensures forall i :: 0 <= i < |lines| ==> ChequeDays(lines[i], now) <= m
  {
    if lines == [] then 0 else Max(ChequeDays(lines[0], now), MaxDays(lines[1..], now))
  }

  lemma {:induction false} WeightedBounds(lines: seq<ChequeLine>, now: int, m: int)
    requires AmountsNonNegative(lines)
    requires forall i :: 0 <= i < |lines| ==> ChequeDays(lines[i], now) <= m
    ensures 0 <= WeightedDays(lines, now) <= ChequeTotal(lines) * m
  {
    if lines != [] {
      var rest := lines[1..];
      WeightedBounds(rest, now, m);
      var a, d := lines[0].amount, ChequeDays(lines[0], now);
      var w, t := WeightedDays(rest, now), ChequeTotal(rest);
      assert WeightedDays(lines, now) == a * d + w;
      assert ChequeTotal(lines) == a + t;
      MulMono(a, 0, d);
      MulMono(a, d, m);
      MulAddRight(a, t, m);
    }
  }

  /** Arithmetic step of WeightedBounds: multiplication distributes over a sum on the left. */
  lemma MulAddRight(a: int, t: int, m: int)
    ensures (a + t) * m == a * m + t * m
  {
  }

  /** Arithmetic step of AvgChequeDaysWithinTerms: a quotient below the (m + 1)-th multiple is at most m. */
  lemma DivBelow(x: int, q: int, m: int)
    requires q > 0 && 0 <= x < q * (m + 1)
    ensures 0 <= x / q <= m
  {
    var e, r := x / q, x % q;
    assert x == q * e + r && 0 <= r < q;
    if e > m {
      MulMono(q, m + 1, e);
    } else if e < 0 {
      MulMono(q, e, -1);
    }
  }

  /** Arithmetic step of DivBelow and DivUnique: multiplying by a non-negative factor keeps the order. */
  lemma MulMono(a: int, b: int, c: int)
    requires a >= 0 && b <= c
    ensures a * b <= a * c
  {
    var k := c - b;
    assert a * c == a * b + a * k;
  }

  /**
   * With non-negative amounts and a positive total, the average term lies
   * between 0 and the longest cheque's term.
   */
  lemma AvgChequeDaysWithinTerms(lines: seq<ChequeLine>, now: int)
    requires AmountsNonNegative(lines) && ChequeTotal(lines) > 0
    ensures 0 <= AvgChequeDays(lines, now) <= MaxDays(lines, now)
  {
    var t, m := ChequeTotal(lines), MaxDays(lines, now);
    var w := WeightedDays(lines, now);
    WeightedBounds(lines, now, m);
    assert w <= t * m;
    assert (2 * t) * (m + 1) == 2 * (t * m) + 2 * t;
    DivBelow(2 * w + t, 2 * t, m);
  }

  /** Cheques that all fall due on the same day average exactly that day's term. */
  lemma {:induction false} UniformTermAverage(lines: seq<ChequeLine>, now: int, d: int)
    requires ChequeTotal(lines) > 0
    requires forall i :: 0 <= i < |lines| ==> ChequeDays(lines[i], now) == d
    ensures AvgChequeDays(lines, now) == d
  {
    var t := ChequeTotal(lines);
    UniformWeighted(lines, now, d);
    DivUnique(2 * (t * d) + t, 2 * t, d);
  }

  /** Arithmetic step of UniformTermAverage: a quotient is pinned down by the multiples of the divisor it lies between. */
  lemma DivUnique(n: int, q: int, d: int)
    requires q > 0 && q * d <= n < q * d + q
    ensures n / q == d
  {
    var e, r := n / q, n % q;
    assert n == q * e + r && 0 <= r < q;
    if e > d {
      MulMono(q, d + 1, e);
    } else if e < d {
      MulMono(q, e + 1, d);
    }
  }

  lemma {:induction false} UniformWeighted(lines: seq<ChequeLine>, now: int, d: int)
    requires forall i :: 0 <= i < |lines| ==> ChequeDays(lines[i], now) == d
    ensures WeightedDays(lines, now) == ChequeTotal(lines) * d
  {
    if lines != [] {
      UniformWeighted(lines[1..], now, d);
      assert ChequeTotal(lines) * d == lines[0].amount * d + ChequeTotal(lines[1..]) * d;
    }
  }

  // ---------------------------------------------------------------------------
  // Agreement completion
  // ---------------------------------------------------------------------------

  datatype AgreementError = PaymentMismatch(paymentTotal: int, offerTotal: int) | ChequeSplitMismatch

  /** What completing the agreement sends: the plan for `startJobApproval` and the offer patched locally. */
  datatype Agreement = Agreement(plan: PaymentPlan, offer: Offer)

  /**
   * "Anlaşmayı Tamamla": refused unless the payment total equals the offer
   * total exactly; the cheque-split guard that follows compares the cheque
   * total with itself and can never refuse.
   */
  function CompleteAgreement(job: Job, inp: Inputs): (r: Result<Agreement, AgreementError>)
    ensures r.Success? <==> PaymentTotal(inp) == OfferTotalValue(job, inp)
    ensures r.Failure? ==> r.error == PaymentMismatch(PaymentTotal(inp), OfferTotalValue(job, inp))
    ensures r.Success? ==>
      r.value.plan.cash + r.value.plan.card + r.value.plan.cheque + r.value.plan.afterDelivery == r.value.offer.total
    ensures r.Success? ==> r.value.plan.cheques == inp.chequeLines && r.value.offer == job.offer.(total := OfferTotalValue(job, inp))
  {
    var paymentTotal := PaymentTotal(inp);
    var chequeTotal := ChequeTotal(inp.chequeLines);
    var offerTotal := OfferTotalValue(job, inp);
    if paymentTotal != offerTotal then Failure(PaymentMismatch(paymentTotal, offerTotal))
    else
      var chequeSum := ChequeTotal(inp.chequeLines);
      if chequeSum != chequeTotal then Failure(ChequeSplitMismatch)
      else Success(Agreement(PaymentPlan(inp.payCash, inp.payCard, chequeTotal, inp.payAfter, inp.chequeLines),
                             job.offer.(total := offerTotal)))
  }

  /** `Math.abs(planTotal - offerTotal) > 0.01` is false: the validator's tolerance test. */
  predicate WithinTolerance(planTotal: int, offerTotal: int) {
    var d := (planTotal - offerTotal) as real;
    (if d < 0.0 then -d else d) <= 0.01
  }

  /** On whole amounts the validator's 0.01 tolerance is the same test as the closure's exact equality. */
  lemma ToleranceIsExactOnWholeAmounts(planTotal: int, offerTotal: int)
    ensures WithinTolerance(planTotal, offerTotal) <==> planTotal == offerTotal
  {
    if planTotal != offerTotal {
      assert planTotal - offerTotal >= 1 || planTotal - offerTotal <= -1;
    }
  }

  // ---------------------------------------------------------------------------
  // Finance closing
  // ---------------------------------------------------------------------------

  /** What the agreement already collected: the plan's cash, card and cheques, not the after-delivery part. */
  function PreReceived(job: Job): (r: int)
    ensures job.approvalPlan.None? ==> r == 0
    ensures job.approvalPlan.Some? ==>
      r == job.approvalPlan.value.cash + job.approvalPlan.value.card + job.approvalPlan.value.cheque
  {
    match job.approvalPlan
    case None => 0
    case Some(p) => p.cash + p.card + p.cheque
  }

  function FinishReceived(inp: Inputs): int {
    inp.financeCash + inp.financeCard + inp.financeCheque
  }

  /** The balance difference of the closing screen: offer − (received before + received now + discount). */
  function FinanceDiff(job: Job, inp: Inputs): (diff: int)
    ensures diff == 0 <==> PreReceived(job) + FinishReceived(inp) + inp.discountAmount == OfferTotalValue(job, inp)
    ensures diff > 0 <==> PreReceived(job) + FinishReceived(inp) + inp.discountAmount < OfferTotalValue(job, inp)
  {
    OfferTotalValue(job, inp) - (PreReceived(job) + FinishReceived(inp) + inp.discountAmount)
  }

  datatype BalanceLabel = Settled | Shortfall | Excess

  /** "Eksik tahsilat!" for a positive difference, "Fazla tahsilat!" for a negative one. */
  function LabelOf(diff: int): (l: BalanceLabel)
    ensures l == Settled <==> diff == 0
    ensures l == Shortfall <==> diff > 0
    ensures l == Excess <==> diff < 0
  {
    if diff == 0 then Settled else if diff > 0 then Shortfall else Excess
  }

  /** Taking the shown difference in cash settles the balance. */
  lemma CollectingDiffSettles(job: Job, inp: Inputs)
    ensures FinanceDiff(job, inp.(financeCash := inp.financeCash + FinanceDiff(job, inp))) == 0
  {
  }

  /** Every payment taken at closing, and the discount, lowers the difference by its amount. */
  lemma FinishPaymentsCount(job: Job, inp: Inputs, a: int)
    ensures FinanceDiff(job, inp.(financeCash := inp.financeCash + a)) == FinanceDiff(job, inp) - a
    ensures FinanceDiff(job, inp.(financeCard := inp.financeCard + a)) == FinanceDiff(job, inp) - a
    ensures FinanceDiff(job, inp.(financeCheque := inp.financeCheque + a)) == FinanceDiff(job, inp) - a
    ensures FinanceDiff(job, inp.(discountAmount := inp.discountAmount + a)) == FinanceDiff(job, inp) - a
  {
  }

  datatype FinanceClose = FinanceClose(total: int, cash: int, card: int, cheque: int, discount: Option<Discount>)

  /**
   * The `closeFinance` payload. It is sent whatever the balance difference
   * is: the screen does not block closing on an unsettled balance.
   */
  function CloseFinancePayload(job: Job, inp: Inputs): (r: FinanceClose)
    ensures r.total == if inp.financeTotal != 0 then inp.financeTotal else OfferTotalValue(job, inp)
    ensures r.discount.Some? <==> inp.discountAmount > 0
    ensures r.discount.Some? ==> r.discount.value == Discount(inp.discountAmount, inp.discountNote)
    ensures r.cash == inp.financeCash && r.card == inp.financeCard && r.cheque == inp.financeCheque
    ensures r.cash + r.card + r.cheque == FinishReceived(inp)
  {
    FinanceClose(
      if inp.financeTotal != 0 then inp.financeTotal else OfferTotalValue(job, inp),
      inp.financeCash, inp.financeCard, inp.financeCheque,
      if inp.discountAmount > 0 then Some(Discount(inp.discountAmount, inp.discountNote)) else None)
  }
}
