/**
 * The service flow (start type SERVIS): scheduling, the visit log, the work
 * report and the payment screen that closes the service
 * (JobsList.jsx, the `service_*` stage panels).
 */
module Service {
  import opened Wrappers
  import opened Jobs

  const ScheduledStatus := "SERVIS_RANDEVULU"
  const WorkingStatus := "SERVIS_YAPILIYOR"
  const ContinuingStatus := "SERVIS_DEVAM_EDIYOR"
  const AwaitingPaymentStatus := "SERVIS_ODEME_BEKLIYOR"
  const ClosedStatus := "SERVIS_KAPALI"
  const DefaultAppointmentTime := "10:00"

  datatype ServiceError = MissingAppointmentOrFee | MissingWorkNote | MissingNewAppointment | BalanceOpen

  /** `t || '10:00'`. */
  function TimeOr(t: string, fallback: string): (r: string)
    ensures t != "" ==> r == t
    ensures t == "" ==> r == fallback
  {
    if t != "" then t else fallback
  }

  /** `visits.findIndex(v => v.status === st)`: the first visit in that state, or -1. */
  function FirstWith(visits: seq<Visit>, st: VisitStatus): (i: int)
    ensures -1 <= i < |visits|
    ensures i == -1 <==> forall j :: 0 <= j < |visits| ==> visits[j].status != st
    ensures i >= 0 ==> visits[i].status == st && forall j :: 0 <= j < i ==> visits[j].status != st
  {
    if visits == [] then -1
    else if visits[0].status == st then 0
    else
      var i := FirstWith(visits[1..], st);
      if i == -1 then -1 else i + 1
  }

  /** Visits are numbered 1, 2, 3, ... in the order they were added. */
  ghost predicate SequentialIds(visits: seq<Visit>) {
    forall i :: 0 <= i < |visits| ==> visits[i].id == i + 1
  }

  /** Two visit logs that differ at most in the visit at position `i`, which keeps its id. */
  ghost predicate ChangedOnlyAt(before: seq<Visit>, after: seq<Visit>, i: int) {
    && |after| == |before|
    && (forall j :: 0 <= j < |before| && j != i ==> after[j] == before[j])
    && (0 <= i < |before| ==> after[i].id == before[i].id && after[i].appointmentDate == before[i].appointmentDate)
  }

  // ---------------------------------------------------------------------------
  // Scheduling and the visit log
  // ---------------------------------------------------------------------------

  /** The single visit scheduling writes: number 1, at the entered date and time (10:00 when blank), not yet visited. */
  function FirstVisit(inp: Inputs): (v: Visit)
    ensures v.id == 1 && v.status == Scheduled
    ensures v.appointmentDate == inp.serviceAppointmentDate
    ensures v.appointmentTime == TimeOr(inp.serviceAppointmentTime, DefaultAppointmentTime)
    ensures v.appointmentTime != ""
    ensures v.note == "" && v.visitedAt.None? && v.completedAt.None?
    ensures v.workNote == "" && v.materials == "" && v.extraCost == 0
  {
    Visit(1, inp.serviceAppointmentDate, TimeOr(inp.serviceAppointmentTime, DefaultAppointmentTime), "",
          None, Scheduled, "", "", 0, None)
  }

  /**
   * "Randevuyu Kaydet ve Onayla": refused without an appointment date or a
   * fixed fee; otherwise records the fee and the note and REPLACES the visit
   * log by one scheduled visit numbered 1.
   */
  function SchedulePatch(job: Job, inp: Inputs): (r: Result<JobPatch, ServiceError>)
    ensures r.Success? <==> inp.serviceAppointmentDate != "" && inp.serviceFixedFee != 0
    ensures r.Success? ==>
      r.value.status == ScheduledStatus && r.value.service.Some? && r.value.offer.None? && r.value.rejection.None?
    ensures r.Success? ==>
      var s := r.value.service.value;
      && |s.visits| == 1 && s.visits[0].id == 1 && s.visits[0].status == Scheduled
      && s.visits[0].appointmentDate == inp.serviceAppointmentDate
      && s.fixedFee == inp.serviceFixedFee && s.note == inp.serviceNote
      && s.totalCost == job.service.totalCost && s.payments == job.service.payments
    ensures r.Success? ==>
      r.value.service == Some(job.service.(fixedFee := inp.serviceFixedFee, note := inp.serviceNote, visits := [FirstVisit(inp)]))
  {
    if inp.serviceAppointmentDate == "" || inp.serviceFixedFee == 0 then Failure(MissingAppointmentOrFee)
    else
      Success(JobPatch(ScheduledStatus, None, None,
        Some(job.service.(fixedFee := inp.serviceFixedFee, note := inp.serviceNote, visits := [FirstVisit(inp)]))))
  }

  /** `${date || today}T${time || now}`: the stamp "Servise Başla" writes. */
  function VisitStamp(inp: Inputs, today: string, nowTime: string): string {
    TimeOr(inp.serviceVisitDate, today) + "T" + TimeOr(inp.serviceVisitTime, nowTime)
  }

  /** The first scheduled visit, if any, becomes in progress with the given stamp. */
  function StartVisits(visits: seq<Visit>, at: string): (r: seq<Visit>)
    ensures ChangedOnlyAt(visits, r, FirstWith(visits, Scheduled))
    ensures var i := FirstWith(visits, Scheduled);
      i >= 0 ==> r[i].status == InProgress && r[i].visitedAt == Some(at)
    ensures var i := FirstWith(visits, Scheduled);
      i >= 0 ==> r[i] == visits[i].(visitedAt := r[i].visitedAt, status := r[i].status)
  {
    var i := FirstWith(visits, Scheduled);
    if i < 0 then visits else visits[i := visits[i].(visitedAt := Some(at), status := InProgress)]
  }

  /** "Servise Başla": the first scheduled visit starts and the job moves to SERVIS_YAPILIYOR. */
  function StartPatch(job: Job, inp: Inputs, today: string, nowTime: string): (p: JobPatch)
    ensures p.status == WorkingStatus && p.service.Some? && p.offer.None? && p.rejection.None?
    ensures p.service.value == job.service.(visits := StartVisits(job.service.visits, VisitStamp(inp, today, nowTime)))
  {
    JobPatch(WorkingStatus, None, None,
      Some(job.service.(visits := StartVisits(job.service.visits, VisitStamp(inp, today, nowTime)))))
  }

  /** The first visit in progress, if any, is completed with the work report. */
  function CompleteVisits(visits: seq<Visit>, inp: Inputs, at: string): (r: seq<Visit>)
    ensures ChangedOnlyAt(visits, r, FirstWith(visits, InProgress))
    ensures var i := FirstWith(visits, InProgress);
      i >= 0 ==> && r[i].status == Completed && r[i].workNote == inp.serviceWorkNote
                 && r[i].extraCost == inp.serviceExtraCost && r[i].completedAt == Some(at)
                 && r[i].materials == inp.serviceMaterials
    ensures var i := FirstWith(visits, InProgress);
      i >= 0 ==> r[i] == visits[i].(workNote := r[i].workNote, materials := r[i].materials,
                                    extraCost := r[i].extraCost, status := r[i].status, completedAt := r[i].completedAt)
  {
    var i := FirstWith(visits, InProgress);
    if i < 0 then visits
    else visits[i := visits[i].(workNote := inp.serviceWorkNote, materials := inp.serviceMaterials,
                                extraCost := inp.serviceExtraCost, status := Completed, completedAt := Some(at))]
  }

  /** `visits.reduce((sum, v) => sum + (v.extraCost || 0), 0)`. */
  function ExtraCostSum(visits: seq<Visit>): int {
    if visits == [] then 0 else visits[0].extraCost + ExtraCostSum(visits[1..])
  }

  /** "Servis Devam Ediyor (Yeni Randevu)": refused without a work note; completes the current visit. */
  function ContinueAfterWorkPatch(job: Job, inp: Inputs, now: string): (r: Result<JobPatch, ServiceError>)
    ensures r.Success? <==> inp.serviceWorkNote != ""
    ensures r.Success? ==>
      r.value.status == ContinuingStatus && r.value.service == Some(job.service.(visits := CompleteVisits(job.service.visits, inp, now)))
  {
    if inp.serviceWorkNote == "" then Failure(MissingWorkNote)
    else Success(JobPatch(ContinuingStatus, None, None,
      Some(job.service.(visits := CompleteVisits(job.service.visits, inp, now)))))
  }

  /**
   * "Ödemeye Geç": refused without a work note; completes the current visit
   * and freezes the cost: the extra costs of all visits plus the fixed fee.
   */
  function FinalizePatch(job: Job, inp: Inputs, now: string): (r: Result<JobPatch, ServiceError>)
    ensures r.Success? <==> inp.serviceWorkNote != ""
    ensures r.Success? ==> r.value.status == AwaitingPaymentStatus && r.value.service.Some?
    ensures r.Success? ==>
      var s := r.value.service.value;
      && s.visits == CompleteVisits(job.service.visits, inp, now)
      && s.totalExtraCost == ExtraCostSum(s.visits)
      && s.totalCost == job.service.fixedFee + s.totalExtraCost
  {
    if inp.serviceWorkNote == "" then Failure(MissingWorkNote)
    else
      var visits := CompleteVisits(job.service.visits, inp, now);
      var extra := ExtraCostSum(visits);
      Success(JobPatch(AwaitingPaymentStatus, None, None,
        Some(job.service.(visits := visits, totalExtraCost := extra, totalCost := job.service.fixedFee + extra))))
  }

  /** The visit "Yeni Randevu Belirle" appends: in progress at once when a visit date is given. */
  function NewVisit(visits: seq<Visit>, inp: Inputs): (v: Visit)
    ensures v.id == |visits| + 1
    ensures v.status == (if inp.serviceVisitDate != "" then InProgress else Scheduled)
    ensures v.visitedAt.Some? <==> inp.serviceVisitDate != ""
    ensures v.visitedAt.Some? ==>
      v.visitedAt.value == inp.serviceVisitDate + "T" + TimeOr(inp.serviceVisitTime, DefaultAppointmentTime)
    ensures v.appointmentDate == inp.serviceNewAppointmentDate && v.note == inp.serviceNewAppointmentNote
    ensures v.appointmentTime == TimeOr(inp.serviceNewAppointmentTime, DefaultAppointmentTime)
    ensures v.workNote == "" && v.materials == "" && v.extraCost == 0 && v.completedAt.None?
  {
    Visit(|visits| + 1, inp.serviceNewAppointmentDate,
          TimeOr(inp.serviceNewAppointmentTime, DefaultAppointmentTime), inp.serviceNewAppointmentNote,
          if inp.serviceVisitDate != "" then Some(inp.serviceVisitDate + "T" + TimeOr(inp.serviceVisitTime, DefaultAppointmentTime)) else None,
          if inp.serviceVisitDate != "" then InProgress else Scheduled,
          "", "", 0, None)
  }

  /** "Randevuyu Kaydet": refused without a new appointment date; appends the next visit. */
  function NewAppointmentPatch(job: Job, inp: Inputs): (r: Result<JobPatch, ServiceError>)
    ensures r.Success? <==> inp.serviceNewAppointmentDate != ""
    ensures r.Success? ==> r.value.status == (if inp.serviceVisitDate != "" then WorkingStatus else ScheduledStatus)
    ensures r.Success? ==> r.value.service == Some(job.service.(visits := job.service.visits + [NewVisit(job.service.visits, inp)]))
  {
    if inp.serviceNewAppointmentDate == "" then Failure(MissingNewAppointment)
    else
      Success(JobPatch(if inp.serviceVisitDate != "" then WorkingStatus else ScheduledStatus, None, None,
        Some(job.service.(visits := job.service.visits + [NewVisit(job.service.visits, inp)]))))
  }

  // ---------------------------------------------------------------------------
  // Payment and closing
  // ---------------------------------------------------------------------------

  /** `totalCost || (fixedFee + totalExtraCost)`. */
  function TotalCost(s: Service): (t: int)
    ensures s.totalCost != 0 ==> t == s.totalCost
    ensures s.totalCost == 0 ==> t == s.fixedFee + s.totalExtraCost
  {
    if s.totalCost != 0 then s.totalCost else s.fixedFee + s.totalExtraCost
  }

  /** Cash, card, transfer and the discount all count as received. */
  function Received(inp: Inputs): int {
    inp.servicePaymentCash + inp.servicePaymentCard + inp.servicePaymentTransfer + inp.serviceDiscount
  }

  /** Each payment, and the discount, lowers what is owed by its amount. */
  lemma ReceivedCountsEachPart(job: Job, inp: Inputs, a: int)
    ensures Balance(job, inp.(servicePaymentCash := inp.servicePaymentCash + a)) == Balance(job, inp) - a
    ensures Balance(job, inp.(servicePaymentCard := inp.servicePaymentCard + a)) == Balance(job, inp) - a
    ensures Balance(job, inp.(servicePaymentTransfer := inp.servicePaymentTransfer + a)) == Balance(job, inp) - a
    ensures Balance(job, inp.(serviceDiscount := inp.serviceDiscount + a)) == Balance(job, inp) - a
  {
  }

  /** What is still owed: positive when short, negative when overpaid. */
  function Balance(job: Job, inp: Inputs): (b: int)
    ensures b == 0 <==> Received(inp) == TotalCost(job.service)
  {
    TotalCost(job.service) - Received(inp)
  }

  /** "Servisi Kapat" is enabled: nothing owed, and a discount carries a note. */
  function CanClose(job: Job, inp: Inputs): (ok: bool)
    ensures ok <==> Received(inp) == TotalCost(job.service) && (inp.serviceDiscount <= 0 || inp.serviceDiscountNote != "")
  {
    Balance(job, inp) == 0 && !(inp.serviceDiscount > 0 && inp.serviceDiscountNote == "")
  }

  /** The payment part both buttons of the payment screen write; a zero discount is stored as none. */
  function PaidService(job: Job, inp: Inputs): (s: Service)
    ensures s.payments == Some(ServicePayments(inp.servicePaymentCash, inp.servicePaymentCard, inp.servicePaymentTransfer))
    ensures s.discount.Some? <==> inp.serviceDiscount > 0
    ensures s.visits == job.service.visits && s.fixedFee == job.service.fixedFee && s.totalCost == job.service.totalCost
  {
    job.service.(payments := Some(ServicePayments(inp.servicePaymentCash, inp.servicePaymentCard, inp.servicePaymentTransfer)),
                 discount := if inp.serviceDiscount > 0 then Some(Discount(inp.serviceDiscount, inp.serviceDiscountNote)) else None)
  }

  /** "Servis Devam Ediyor" on the payment screen: always allowed, whatever the balance. */
  function PaymentContinuePatch(job: Job, inp: Inputs): (p: JobPatch)
    ensures p.status == ContinuingStatus && p.service == Some(PaidService(job, inp))
  {
    JobPatch(ContinuingStatus, None, None, Some(PaidService(job, inp)))
  }

  /** "Servisi Kapat": refused while the balance is open or a discount lacks its note. */
  function ClosePatch(job: Job, inp: Inputs, now: string): (r: Result<JobPatch, ServiceError>)
    ensures r.Success? <==> CanClose(job, inp)
    ensures r.Success? ==>
      r.value.status == ClosedStatus && r.value.service == Some(PaidService(job, inp).(paymentStatus := "paid", completedAt := Some(now)))
  {
    if !CanClose(job, inp) then Failure(BalanceOpen)
    else Success(JobPatch(ClosedStatus, None, None,
      Some(PaidService(job, inp).(paymentStatus := "paid", completedAt := Some(now)))))
  }

  // ---------------------------------------------------------------------------
  // Properties of the visit log and the payment screen
  // ---------------------------------------------------------------------------

  /** Scheduling starts the numbering afresh; starting, completing and appending keep it. */
  lemma SequentialIdsKept(job: Job, inp: Inputs, at: string)
    ensures SchedulePatch(job, inp).Success? ==> SequentialIds(SchedulePatch(job, inp).value.service.value.visits)
    ensures SequentialIds(job.service.visits) ==> SequentialIds(StartVisits(job.service.visits, at))
    ensures SequentialIds(job.service.visits) ==> SequentialIds(CompleteVisits(job.service.visits, inp, at))
    ensures SequentialIds(job.service.visits) && NewAppointmentPatch(job, inp).Success? ==>
      SequentialIds(NewAppointmentPatch(job, inp).value.service.value.visits)
  {
  }

  /** Changing one visit moves the extra-cost sum by exactly that visit's change. */
  lemma {:induction false} ExtraCostSumUpdate(visits: seq<Visit>, i: int, v: Visit)
    requires 0 <= i < |visits|
    ensures ExtraCostSum(visits[i := v]) == ExtraCostSum(visits) - visits[i].extraCost + v.extraCost
  {
    if i > 0 {
      assert visits[i := v][1..] == visits[1..][i - 1 := v];
      ExtraCostSumUpdate(visits[1..], i - 1, v);
    }
  }

  /**
   * Finalising adds the current visit's extra cost to the extra costs already
   * logged: the frozen total is the fixed fee plus the earlier costs, less
   * whatever the in-progress visit carried, plus the reported cost.
   */
  lemma FinalizeCost(job: Job, inp: Inputs, now: string)
    requires inp.serviceWorkNote != ""
    ensures var s := FinalizePatch(job, inp, now).value.service.value;
      var i := FirstWith(job.service.visits, InProgress);
      && (i >= 0 ==> s.totalCost == job.service.fixedFee + ExtraCostSum(job.service.visits)
                                    - job.service.visits[i].extraCost + inp.serviceExtraCost)
      && (i < 0 ==> s.totalCost == job.service.fixedFee + ExtraCostSum(job.service.visits))
  {
    var visits := job.service.visits;
    var i := FirstWith(visits, InProgress);
    if i >= 0 {
      ExtraCostSumUpdate(visits, i, visits[i].(workNote := inp.serviceWorkNote, materials := inp.serviceMaterials,
                                              extraCost := inp.serviceExtraCost, status := Completed, completedAt := Some(now)));
    }
  }

  /** Once the cost is frozen, the balance is the frozen total less what was received. */
  lemma BalanceAfterFinalize(job: Job, inp: Inputs, now: string, pay: Inputs)
    requires inp.serviceWorkNote != ""
    ensures var j := ApplyPatch(job, FinalizePatch(job, inp, now).value);
      Balance(j, pay) == j.service.fixedFee + j.service.totalExtraCost - Received(pay)
  {
  }

  /**
   * A 500 fixed fee with one 150 extra: 650 to collect. 600 in cash leaves
   * 50 open and the service cannot close; a 50 discount closes it only with
   * a note.
   */
  lemma ServicePaymentExample(job: Job, pay: Inputs)
    requires job.service.fixedFee == 500 && job.service.totalExtraCost == 150 && job.service.totalCost == 650
    requires pay.servicePaymentCash == 600 && pay.servicePaymentCard == 0 && pay.servicePaymentTransfer == 0
    ensures pay.serviceDiscount == 0 ==> Balance(job, pay) == 50 && !CanClose(job, pay)
    ensures pay.serviceDiscount == 50 ==> (CanClose(job, pay) <==> pay.serviceDiscountNote != "")
  {
  }
}
