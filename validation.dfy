/**
 * `validateStageTransition` (JobsList.jsx): collects every violated rule
 * for a requested target status into an error list, and the document gate
 * the pricing screen actually uses.
 */
module Validation {
  import opened Wrappers
  import opened Amounts
  import opened Jobs
  import opened Payments

  datatype ValidationError =
    | MissingMeasureDrawing(roleName: string)
    | MissingTechnicalDrawing(roleName: string)
    | MeasureNotConfirmed
    | OfferAmountMissing
    | PlanMismatch(planTotal: int, offerTotal: int)

  const CustomerMeasureStart := "MUSTERI_OLCUSU"
  const MeasureAppointmentStart := "OLCU"

  /** `(job.roleFiles?.[key] || {}).measure?.length` is non-zero. */
  predicate HasMeasureFiles(files: map<string, RoleFiles>, key: string) {
    key in files && |files[key].measure| > 0
  }

  predicate HasTechnicalFiles(files: map<string, RoleFiles>, key: string) {
    key in files && |files[key].technical| > 0
  }

  /** The errors one role contributes: a missing measurement drawing, then a missing technical drawing. */
  function RoleErrors(r: Role, files: map<string, RoleFiles>): seq<ValidationError> {
    (if !HasMeasureFiles(files, RoleKey(r)) then [MissingMeasureDrawing(r.name)] else []) +
    (if !HasTechnicalFiles(files, RoleKey(r)) then [MissingTechnicalDrawing(r.name)] else [])
  }

  /** The errors of all roles, role by role in the job's order. */
  function RoleFileErrors(roles: seq<Role>, files: map<string, RoleFiles>): seq<ValidationError> {
    if roles == [] then [] else RoleFileErrors(roles[..|roles| - 1], files) + RoleErrors(roles[|roles| - 1], files)
  }

  /** The total the offer-ready rule checks: the role prices' sum, or the entered offer total when that sum is 0. */
  function OfferAmount(inp: Inputs): int {
    var rolePricesTotal := SumValues(inp.rolePrices);
    if rolePricesTotal != 0 then rolePricesTotal else inp.offerTotal
  }

  /** The reference list of violated rules for `target`. */
  function ExpectedErrors(target: string, job: Job, inp: Inputs): seq<ValidationError> {
    var pricing :=
      if target != "FIYATLANDIRMA" then []
      else
        (if job.startType == CustomerMeasureStart then RoleFileErrors(job.roles, job.roleFiles) else []) +
        (if job.startType == MeasureAppointmentStart && !inp.measureConfirmed then [MeasureNotConfirmed] else []);
    var offer := if target == "TEKLIF_HAZIR" && OfferAmount(inp) <= 0 then [OfferAmountMissing] else [];
    var plan :=
      if target == "ONAY_BEKLIYOR" && !WithinTolerance(PaymentTotal(inp), job.offer.total)
      then [PlanMismatch(PaymentTotal(inp), job.offer.total)] else [];
    pricing + offer + plan
  }

  /**
   * `validateStageTransition(target)`: the collected errors, and whether
   * there were none.
   */
  method ValidateStageTransition(target: string, job: Job, inp: Inputs) returns (ok: bool, errors: seq<ValidationError>)
    ensures errors == ExpectedErrors(target, job, inp)
    ensures ok <==> errors == []
  {
    errors := [];
    if target == "FIYATLANDIRMA" {
      if job.startType == CustomerMeasureStart {
        var i := 0;
        while i < |job.roles|
          invariant 0 <= i <= |job.roles|
          invariant errors == RoleFileErrors(job.roles[..i], job.roleFiles)
        {
          var role := job.roles[i];
          var key := RoleKey(role);
          if !HasMeasureFiles(job.roleFiles, key) {
            errors := errors + [MissingMeasureDrawing(role.name)];
          }
          if !HasTechnicalFiles(job.roleFiles, key) {
            errors := errors + [MissingTechnicalDrawing(role.name)];
          }
          assert job.roles[..i + 1][..i] == job.roles[..i];
          i := i + 1;
        }
        assert job.roles[..|job.roles|] == job.roles;
      }
      if job.startType == MeasureAppointmentStart && !inp.measureConfirmed {
        errors := errors + [MeasureNotConfirmed];
      }
    }
    if target == "TEKLIF_HAZIR" {
      var rolePricesTotal := SumValues(inp.rolePrices);
      var total := if rolePricesTotal != 0 then rolePricesTotal else inp.offerTotal;
      if total <= 0 {
        errors := errors + [OfferAmountMissing];
      }
    }
    if target == "ONAY_BEKLIYOR" {
      var planTotal := inp.payCash + inp.payCard + ChequeTotal(inp.chequeLines) + inp.payAfter;
      var offerTotal := job.offer.total;
      if !WithinTolerance(planTotal, offerTotal) {
        errors := errors + [PlanMismatch(planTotal, offerTotal)];
      }
    }
    ok := |errors| == 0;
  }

  // ---------------------------------------------------------------------------
  // What the collected list means
  // ---------------------------------------------------------------------------

  /** The number of roles without measurement drawings plus the number without technical drawings. */
  function MissingCount(roles: seq<Role>, files: map<string, RoleFiles>): nat {
    if roles == [] then 0
    else
      var r := roles[|roles| - 1];
      MissingCount(roles[..|roles| - 1], files)
        + (if HasMeasureFiles(files, RoleKey(r)) then 0 else 1)
        + (if HasTechnicalFiles(files, RoleKey(r)) then 0 else 1)
  }

  /** An error is in the collected list iff some role contributes it. */
  lemma {:induction false} RoleFileErrorsMembership(roles: seq<Role>, files: map<string, RoleFiles>, e: ValidationError)
    ensures e in RoleFileErrors(roles, files) <==> exists i :: 0 <= i < |roles| && e in RoleErrors(roles[i], files)
  {
    if roles != [] {
      var init := roles[..|roles| - 1];
      RoleFileErrorsMembership(init, files, e);
      assert forall i :: 0 <= i < |init| ==> init[i] == roles[i];
      if e in RoleFileErrors(init, files) {
        var i :| 0 <= i < |init| && e in RoleErrors(init[i], files);
        assert e in RoleErrors(roles[i], files);
      }
    }
  }

  /**
   * A role name is reported missing a measurement drawing exactly when some
   * role of that name has none, and likewise for technical drawings.
   */
  lemma RoleFileErrorsExact(roles: seq<Role>, files: map<string, RoleFiles>, name: string)
    ensures MissingMeasureDrawing(name) in RoleFileErrors(roles, files) <==>
      exists i :: 0 <= i < |roles| && roles[i].name == name && !HasMeasureFiles(files, RoleKey(roles[i]))
    ensures MissingTechnicalDrawing(name) in RoleFileErrors(roles, files) <==>
      exists i :: 0 <= i < |roles| && roles[i].name == name && !HasTechnicalFiles(files, RoleKey(roles[i]))
  {
    RoleFileErrorsMembership(roles, files, MissingMeasureDrawing(name));
    RoleFileErrorsMembership(roles, files, MissingTechnicalDrawing(name));
  }

  /** One error per missing drawing, and nothing but missing-drawing errors. */
  lemma {:induction false} RoleFileErrorsCount(roles: seq<Role>, files: map<string, RoleFiles>)
    ensures |RoleFileErrors(roles, files)| == MissingCount(roles, files)
    ensures forall e :: e in RoleFileErrors(roles, files) ==> e.MissingMeasureDrawing? || e.MissingTechnicalDrawing?
  {
    if roles != [] {
      RoleFileErrorsCount(roles[..|roles| - 1], files);
    }
  }

  /** Customer-supplied measures: the pricing target fails iff some role lacks a drawing, listing one error per missing drawing. */
  lemma CustomerMeasurePricingRule(job: Job, inp: Inputs)
    requires job.startType == CustomerMeasureStart
    ensures ExpectedErrors("FIYATLANDIRMA", job, inp) == RoleFileErrors(job.roles, job.roleFiles)
    ensures |ExpectedErrors("FIYATLANDIRMA", job, inp)| == MissingCount(job.roles, job.roleFiles)
    ensures ExpectedErrors("FIYATLANDIRMA", job, inp) == [] <==>
      forall i :: 0 <= i < |job.roles| ==>
        HasMeasureFiles(job.roleFiles, RoleKey(job.roles[i])) && HasTechnicalFiles(job.roleFiles, RoleKey(job.roles[i]))
  {
    RoleFileErrorsCount(job.roles, job.roleFiles);
    CountZero(job.roles, job.roleFiles);
  }

  lemma {:induction false} CountZero(roles: seq<Role>, files: map<string, RoleFiles>)
    ensures MissingCount(roles, files) == 0 <==>
      forall i :: 0 <= i < |roles| ==> HasMeasureFiles(files, RoleKey(roles[i])) && HasTechnicalFiles(files, RoleKey(roles[i]))
  {
    if roles != [] {
      var init := roles[..|roles| - 1];
      CountZero(init, files);
      assert forall i :: 0 <= i < |init| ==> init[i] == roles[i];
    }
  }

  /** Measure appointments: the pricing target fails, with the one error, iff the measure is not confirmed. */
  lemma MeasureAppointmentPricingRule(job: Job, inp: Inputs)
    requires job.startType == MeasureAppointmentStart
    ensures ExpectedErrors("FIYATLANDIRMA", job, inp) == if inp.measureConfirmed then [] else [MeasureNotConfirmed]
  {
  }

  /** The offer-ready target fails iff the role-price sum (or, when that is 0, the entered total) is not positive. */
  lemma OfferReadyRule(job: Job, inp: Inputs)
    ensures ExpectedErrors("TEKLIF_HAZIR", job, inp) == [] <==> OfferAmount(inp) > 0
    ensures ExpectedErrors("TEKLIF_HAZIR", job, inp) != [] ==> ExpectedErrors("TEKLIF_HAZIR", job, inp) == [OfferAmountMissing]
  {
  }

  /**
   * The approval target fails iff the plan total differs from the job's
   * offer total, which on whole amounts is the same test as the agreement
   * closure's exact equality; the error carries both totals.
   */
  lemma ApprovalRule(job: Job, inp: Inputs)
    ensures ExpectedErrors("ONAY_BEKLIYOR", job, inp) == [] <==> PaymentTotal(inp) == job.offer.total
    ensures ExpectedErrors("ONAY_BEKLIYOR", job, inp) != [] ==>
      ExpectedErrors("ONAY_BEKLIYOR", job, inp) == [PlanMismatch(PaymentTotal(inp), job.offer.total)]
  {
    ToleranceIsExactOnWholeAmounts(PaymentTotal(inp), job.offer.total);
  }

  /** Any other target has no blocking rule. */
  lemma FreeTransitions(target: string, job: Job, inp: Inputs)
    requires target != "FIYATLANDIRMA" && target != "TEKLIF_HAZIR" && target != "ONAY_BEKLIYOR"
    ensures ExpectedErrors(target, job, inp) == []
  {
  }

  /** 4000 cash + 2000 card + a 3000 cheque + 1000 after delivery against a 10000 offer passes. */
  lemma ApprovalExample(job: Job, inp: Inputs)
    requires job.offer.total == 10000
    requires inp.payCash == 4000 && inp.payCard == 2000 && inp.payAfter == 1000
    requires inp.chequeLines == [ChequeLine(3000, None, "", "", "")]
    ensures ExpectedErrors("ONAY_BEKLIYOR", job, inp) == []
  {
    assert ChequeTotal(inp.chequeLines) == 3000;
    ApprovalRule(job, inp);
  }

  // ---------------------------------------------------------------------------
  // The document gate of the pricing screen
  // ---------------------------------------------------------------------------

  /** The gate shown before pricing: every role has a `measure_<key>` and a `technical_<key>` document. */
  predicate DocumentsComplete(roles: seq<Role>, docTypes: seq<string>) {
    forall i :: 0 <= i < |roles| ==>
      ("measure_" + RoleKey(roles[i])) in docTypes && ("technical_" + RoleKey(roles[i])) in docTypes
  }

  /**
   * The gate reads the document store while the validator reads
   * `job.roleFiles`: a job with both drawings uploaded for its one role
   * passes the gate and still fails the validator.
   */
  lemma GateAndValidatorDisagree(job: Job, inp: Inputs)
    requires job.startType == CustomerMeasureStart
    requires job.roles == [Role("pvc", "PVC")] && job.roleFiles == map[]
    ensures DocumentsComplete(job.roles, ["measure_pvc", "technical_pvc"])
    ensures ExpectedErrors("FIYATLANDIRMA", job, inp) == [MissingMeasureDrawing("PVC"), MissingTechnicalDrawing("PVC")]
  {
    var r := job.roles[0];
    assert RoleKey(r) == "pvc";
    assert "measure_" + "pvc" == "measure_pvc";
    assert "technical_" + "pvc" == "technical_pvc";
    assert job.roles[..0] == [];
    assert !HasMeasureFiles(job.roleFiles, "pvc") && !HasTechnicalFiles(job.roleFiles, "pvc");
    assert RoleFileErrors(job.roles, job.roleFiles) == RoleErrors(r, job.roleFiles);
  }
}
