/**
 * The negotiation ledger, rejection and reactivation of an offer
 * (JobsList.jsx: the FIYAT_VERILDI screen's confirm button, the rejection
 * modal and the ANLASILAMADI screen's reactivation button).
 */
module Negotiation {
  import opened Wrappers
  import opened Amounts
  import opened Jobs
  import Stages

  const AgreementStatus := "ANLASMA_YAPILIYOR"
  const RejectedStatus := "ANLASILAMADI"
  const PricedStatus := "FIYAT_VERILDI"

  /** `job.offer.total`, or when that is 0 the sum of the role prices over the job's roles. */
  function OriginalTotal(job: Job): (t: int)
    ensures job.offer.total != 0 ==> t == job.offer.total
    ensures job.offer.total == 0 ==> t == RoleSum(job.roles, job.offer.rolePrices)
  {
    if job.offer.total != 0 then job.offer.total else RoleSum(job.roles, job.offer.rolePrices)
  }

  /**
   * `newRolePrices` after the `forEach` has visited the first `n` roles:
   * each visited role key holds its old price less its discount.
   */
  function DiscountedPrices(roles: seq<Role>, n: nat, prices: Keyed, discounts: Keyed): Keyed
    requires n <= |roles|
  {
    if n == 0 then []
    else
      Put(DiscountedPrices(roles, n - 1, prices, discounts), RoleKey(roles[n - 1]),
          Lookup(prices, RoleKey(roles[n - 1])) - Lookup(discounts, RoleKey(roles[n - 1])))
  }

  /** The ledger entry a confirmation appends. */
  function NegotiationEntry(job: Job, discounts: Keyed, now: string): (rec: NegotiationRecord)
    ensures rec.finalTotal == rec.originalTotal - rec.discountTotal
    ensures rec.originalTotal == OriginalTotal(job) && rec.discountTotal == SumValues(discounts)
    ensures rec.roleDiscounts == discounts && rec.date == now
  {
    var original := OriginalTotal(job);
    var discount := SumValues(discounts);
    NegotiationRecord(now, original, discount, original - discount, discounts)
  }

  /** The reference patch a confirmed negotiation sends. */
  function NegotiationPatch(job: Job, discounts: Keyed, now: string): JobPatch {
    var rec := NegotiationEntry(job, discounts, now);
    JobPatch(AgreementStatus,
      Some(job.offer.(total := rec.finalTotal,
                      rolePrices := DiscountedPrices(job.roles, |job.roles|, job.offer.rolePrices, discounts),
                      negotiationHistory := job.offer.negotiationHistory + [rec],
                      agreedDate := Some(now))),
      None, None)
  }

  /**
   * "Bu Fiyatla Anlaşıldı": appends one negotiation record to the history,
   * lowers every role price by that role's discount (without clamping at
   * 0), sets the offer total to the final total and moves to the agreement
   * status.
   */
  method ConfirmNegotiation(job: Job, discounts: Keyed, now: string) returns (patch: JobPatch)
    ensures patch == NegotiationPatch(job, discounts, now)
    ensures patch.status == AgreementStatus && patch.offer.Some?
    ensures |patch.offer.value.negotiationHistory| == |job.offer.negotiationHistory| + 1
    ensures patch.offer.value.negotiationHistory[..|job.offer.negotiationHistory|] == job.offer.negotiationHistory
    ensures patch.offer.value.total == OriginalTotal(job) - SumValues(discounts)
  {
    var history := job.offer.negotiationHistory;
    var originalTotal := OriginalTotal(job);
    var totalDiscount := SumValues(discounts);
    var finalTotal := originalTotal - totalDiscount;
    var newHistory := history + [NegotiationRecord(now, originalTotal, totalDiscount, finalTotal, discounts)];

    var newRolePrices := DiscountRolePrices(job.roles, job.offer.rolePrices, discounts);
    assert newHistory[..|history|] == history;

    patch := JobPatch(AgreementStatus,
      Some(job.offer.(total := finalTotal, rolePrices := newRolePrices,
                      negotiationHistory := newHistory, agreedDate := Some(now))),
      None, None);
  }

  /** The `forEach` over the roles that fills `newRolePrices`. */
  method DiscountRolePrices(roles: seq<Role>, prices: Keyed, discounts: Keyed) returns (newRolePrices: Keyed)
    ensures newRolePrices == DiscountedPrices(roles, |roles|, prices, discounts)
  {
    newRolePrices := [];
    var i := 0;
    while i < |roles|
      invariant 0 <= i <= |roles|
      invariant newRolePrices == DiscountedPrices(roles, i, prices, discounts)
    {
      var key := RoleKey(roles[i]);
      var oldPrice := Lookup(prices, key);
      newRolePrices := Put(newRolePrices, key, oldPrice - Lookup(discounts, key));
      i := i + 1;
    }
  }

  // ---------------------------------------------------------------------------
  // What a negotiation does to the role prices
  // ---------------------------------------------------------------------------

  /** Each visited role key ends up with its old price less its discount. */
  lemma {:induction false} DiscountedPricesLookup(roles: seq<Role>, n: nat, prices: Keyed, discounts: Keyed)
    requires n <= |roles|
    ensures forall i :: 0 <= i < n ==>
      Lookup(DiscountedPrices(roles, n, prices, discounts), RoleKey(roles[i])) ==
        Lookup(prices, RoleKey(roles[i])) - Lookup(discounts, RoleKey(roles[i]))
  {
    if n > 0 {
      var prev := DiscountedPrices(roles, n - 1, prices, discounts);
      var k := RoleKey(roles[n - 1]);
      var v := Lookup(prices, k) - Lookup(discounts, k);
      var cur := DiscountedPrices(roles, n, prices, discounts);
      assert cur == Put(prev, k, v);
      DiscountedPricesLookup(roles, n - 1, prices, discounts);
      PutLookup(prev, k, v);
      forall i | 0 <= i < n
        ensures Lookup(cur, RoleKey(roles[i])) == Lookup(prices, RoleKey(roles[i])) - Lookup(discounts, RoleKey(roles[i]))
      {
        var x := RoleKey(roles[i]);
        if x == k {
          assert Lookup(cur, x) == v;
        } else {
          assert i < n - 1;
          assert Lookup(cur, x) == Lookup(prev, x);
        }
      }
    }
  }

  /** Only the visited role keys are written. */
  lemma {:induction false} DiscountedPricesKeys(roles: seq<Role>, n: nat, prices: Keyed, discounts: Keyed)
    requires n <= |roles|
    ensures forall x :: x in Keys(DiscountedPrices(roles, n, prices, discounts)) <==>
      exists i :: 0 <= i < n && RoleKey(roles[i]) == x
  {
    if n > 0 {
      var prev := DiscountedPrices(roles, n - 1, prices, discounts);
      var k := RoleKey(roles[n - 1]);
      var v := Lookup(prices, k) - Lookup(discounts, k);
      var cur := DiscountedPrices(roles, n, prices, discounts);
      assert cur == Put(prev, k, v);
      DiscountedPricesKeys(roles, n - 1, prices, discounts);
      PutLookup(prev, k, v);
      assert Keys(cur) == Keys(prev) + {k};
      forall x
        ensures x in Keys(cur) <==> exists i :: 0 <= i < n && RoleKey(roles[i]) == x
      {
        if x in Keys(cur) && x != k {
          assert x in Keys(prev);
        }
      }
    }
  }

  /** No key is written twice. */
  lemma {:induction false} DiscountedPricesUnique(roles: seq<Role>, n: nat, prices: Keyed, discounts: Keyed)
    requires n <= |roles|
    ensures UniqueKeys(DiscountedPrices(roles, n, prices, discounts))
  {
    if n > 0 {
      var prev := DiscountedPrices(roles, n - 1, prices, discounts);
      var k := RoleKey(roles[n - 1]);
      var v := Lookup(prices, k) - Lookup(discounts, k);
      assert DiscountedPrices(roles, n, prices, discounts) == Put(prev, k, v);
      DiscountedPricesUnique(roles, n - 1, prices, discounts);
      PutKeepsUniqueKeys(prev, k, v);
    }
  }

  /** Summing over the roles distributes over a per-role difference. */
  lemma {:induction false} RoleSumPointwise(roles: seq<Role>, a: Keyed, b: Keyed, c: Keyed)
    requires forall i :: 0 <= i < |roles| ==>
      Lookup(a, RoleKey(roles[i])) == Lookup(b, RoleKey(roles[i])) - Lookup(c, RoleKey(roles[i]))
    ensures RoleSum(roles, a) == RoleSum(roles, b) - RoleSum(roles, c)
  {
    if roles != [] {
      assert forall i :: 0 <= i < |roles[1..]| ==> roles[1..][i] == roles[i + 1];
      RoleSumPointwise(roles[1..], a, b, c);
    }
  }

  /** Two price lists that agree on every role give the same role sum. */
  lemma {:induction false} RoleSumAgree(roles: seq<Role>, a: Keyed, b: Keyed)
    requires forall i :: 0 <= i < |roles| ==> Lookup(a, RoleKey(roles[i])) == Lookup(b, RoleKey(roles[i]))
    ensures RoleSum(roles, a) == RoleSum(roles, b)
  {
    if roles != [] {
      assert forall i :: 0 <= i < |roles[1..]| ==> roles[1..][i] == roles[i + 1];
      RoleSumAgree(roles[1..], a, b);
    }
  }

  /**
   * When every discount belongs to one of the job's roles (and role keys are
   * distinct), summing the discounts over the roles gives the discount total.
   */
  lemma {:induction false} RoleSumOfDiscounts(roles: seq<Role>, d: Keyed)
    requires RoleKeysDistinct(roles) && UniqueKeys(d) && Keys(d) <= RoleKeySet(roles)
    ensures RoleSum(roles, d) == SumValues(d)
  {
    if roles == [] {
      KeysMembership(d);
    } else {
      var k := RoleKey(roles[0]);
      var rest := roles[1..];
      var d' := Remove(d, k);
      SumSplitsAtKey(d, k);
      RemoveLookup(d, k);
      assert RoleKeysDistinct(rest);
      assert forall i :: 0 <= i < |rest| ==> rest[i] == roles[i + 1] && RoleKey(rest[i]) != k;
      assert Keys(d') <= RoleKeySet(rest) by {
        forall x | x in Keys(d')
          ensures x in RoleKeySet(rest)
        {
          assert x in RoleKeySet(roles) && x != k;
          var i :| 0 <= i < |roles| && RoleKey(roles[i]) == x;
          assert i != 0;
          assert RoleKey(rest[i - 1]) == x;
        }
      }
      RoleSumOfDiscounts(rest, d');
      RoleSumAgree(rest, d', d);
    }
  }

  /**
   * If the offer total was the sum of the role prices and every discount
   * belongs to a role, the negotiated total is again the sum of the new role
   * prices, which are defined for exactly the job's role keys.
   */
  lemma NegotiationKeepsTotalEqualToRolePrices(job: Job, discounts: Keyed, now: string)
    requires RoleKeysDistinct(job.roles) && UniqueKeys(discounts) && Keys(discounts) <= RoleKeySet(job.roles)
    requires job.offer.total == RoleSum(job.roles, job.offer.rolePrices)
    ensures var o := NegotiationPatch(job, discounts, now).offer.value;
      o.total == RoleSum(job.roles, o.rolePrices) && Keys(o.rolePrices) == RoleKeySet(job.roles)
  {
    var prices := DiscountedPrices(job.roles, |job.roles|, job.offer.rolePrices, discounts);
    DiscountedPricesLookup(job.roles, |job.roles|, job.offer.rolePrices, discounts);
    DiscountedPricesKeys(job.roles, |job.roles|, job.offer.rolePrices, discounts);
    RoleSumPointwise(job.roles, prices, job.offer.rolePrices, discounts);
    RoleSumOfDiscounts(job.roles, discounts);
  }

  /** A discount larger than the role's price leaves a negative price: nothing clamps at 0. */
  lemma DiscountIsNotClamped(job: Job, now: string)
    requires job.roles == [Role("pvc", "PVC")] && job.offer.rolePrices == [("pvc", 100)]
    ensures Lookup(NegotiationPatch(job, [("pvc", 150)], now).offer.value.rolePrices, "pvc") == -50
  {
    DiscountedPricesLookup(job.roles, 1, job.offer.rolePrices, [("pvc", 150)]);
    assert RoleKey(job.roles[0]) == "pvc";
  }

  // ---------------------------------------------------------------------------
  // Rejection and reactivation
  // ---------------------------------------------------------------------------

  datatype RejectError = MissingReasonOrCategory

  /**
   * "İşi Anlaşılamadı Olarak İşaretle": refused without a reason and a
   * category; otherwise records the rejection with the current offer as its
   * `lastOffer`.
   */
  function RejectionPatch(job: Job, inp: Inputs, now: string): (r: Result<JobPatch, RejectError>)
    ensures r.Success? <==> inp.rejectionReason != "" && inp.rejectionCategory != ""
    ensures r.Success? ==> r.value.status == RejectedStatus && r.value.offer.None? && r.value.service.None?
    ensures r.Success? ==> r.value.rejection.Some? && r.value.rejection.value.lastOffer == job.offer
  {
    if inp.rejectionReason == "" || inp.rejectionCategory == "" then Failure(MissingReasonOrCategory)
    else
      Success(JobPatch(RejectedStatus, None,
        Some(Rejection(inp.rejectionCategory, inp.rejectionReason,
                       if inp.rejectionFollowUp == "" then None else Some(inp.rejectionFollowUp),
                       now, job.offer)),
        None))
  }

  /** The offer the reactivation restores: `job.rejection?.lastOffer || job.offer`. */
  function LastOffer(job: Job): Offer {
    match job.rejection
    case Some(rej) => rej.lastOffer
    case None => job.offer
  }

  /**
   * "İşi Yeniden Aktifleştir": back to the priced status with the last
   * offer, stamped with the time and the rejection it came from. The patch
   * does not touch `rejection`.
   */
  function ReactivationPatch(job: Job, now: string): (p: JobPatch)
    ensures p.status == PricedStatus && p.rejection.None? && p.service.None?
    ensures p.offer == Some(LastOffer(job).(reactivatedAt := Some(now), reactivatedFrom := job.rejection))
  {
    JobPatch(PricedStatus, Some(LastOffer(job).(reactivatedAt := Some(now), reactivatedFrom := job.rejection)), None, None)
  }

  /**
   * Rejecting and then reactivating a job restores the rejected offer (its
   * total, role prices and negotiation history), stamped with the
   * reactivation, and returns a standard job from the measure stage, where
   * the unlisted rejected status puts it, to the pricing stage. The
   * rejection record stays on the job.
   */
  lemma RejectThenReactivate(job: Job, inp: Inputs, t1: string, t2: string)
    requires inp.rejectionReason != "" && inp.rejectionCategory != ""
    requires job.startType != Stages.ServiceStartType
    ensures var rejected := ApplyPatch(job, RejectionPatch(job, inp, t1).value);
            var back := ApplyPatch(rejected, ReactivationPatch(rejected, t2));
            && Stages.CurrentStage(rejected.status, job.startType).id == "measure"
            && back.offer == job.offer.(reactivatedAt := Some(t2), reactivatedFrom := rejected.rejection)
            && back.offer.total == job.offer.total
            && back.offer.negotiationHistory == job.offer.negotiationHistory
            && back.status == PricedStatus
            && Stages.CurrentStage(back.status, job.startType).id == "pricing"
            && back.rejection == rejected.rejection
  {
    Stages.UnlistedStatusesClassifyAsMeasure(job.startType);
    Stages.ClassificationExact(job.startType, 1, PricedStatus);
  }
}
