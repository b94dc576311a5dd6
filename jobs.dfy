/**
 * The job snapshot the stepper renders, the form inputs it keeps, and the
 * patch a handler sends to the job store (JobsList.jsx: normalizeJob, the
 * `inputs` state of JobStepper, the `updateJobStatus` payloads).
 */
module Jobs {
  import opened Wrappers
  import opened Amounts
  import Stock

  /** A work category of the job; `role.id || role.name` keys its prices, discounts and files. */
  datatype Role = Role(id: string, name: string)

  function RoleKey(r: Role): string {
    if r.id != "" then r.id else r.name
  }

  /** The files recorded for one role on the job (`job.roleFiles[roleKey]`). */
  datatype RoleFiles = RoleFiles(measure: seq<string>, technical: seq<string>)

  /** One discount round, frozen once appended to the offer's history. */
  datatype NegotiationRecord = NegotiationRecord(
    date: string, originalTotal: int, discountTotal: int, finalTotal: int, roleDiscounts: Keyed)

  datatype Offer = Offer(
    total: int,
    rolePrices: Keyed,
    negotiationHistory: seq<NegotiationRecord>,
    notifiedDate: Option<string>,
    agreedDate: Option<string>,
    reactivatedAt: Option<string>,
    reactivatedFrom: Option<Rejection>)

  /** The record a rejection leaves on the job, including the offer it rejected. */
  datatype Rejection = Rejection(
    category: string, reason: string, followUpDate: Option<string>, date: string, lastOffer: Offer)

  /** An offer with nothing in it (`job.offer || {}`). */
  const EmptyOffer := Offer(0, [], [], None, None, None, None)

  /** A cheque of the payment plan; `due` is a millisecond timestamp when the date is filled in. */
  datatype ChequeLine = ChequeLine(amount: int, due: Option<int>, bank: string, branch: string, number: string)

  /** The payment plan recorded when the agreement was completed (`job.approval.paymentPlan`). */
  datatype PaymentPlan = PaymentPlan(cash: int, card: int, cheque: int, afterDelivery: int, cheques: seq<ChequeLine>)

  datatype VisitStatus = Scheduled | InProgress | Completed

  datatype Visit = Visit(
    id: int, appointmentDate: string, appointmentTime: string, note: string,
    visitedAt: Option<string>, status: VisitStatus,
    workNote: string, materials: string, extraCost: int, completedAt: Option<string>)

  datatype ServicePayments = ServicePayments(cash: int, card: int, transfer: int)

  datatype Discount = Discount(amount: int, note: string)

  /**
   * The service sub-record. `totalExtraCost` and `totalCost` are 0 until the
   * work is finalised; the source reads both through `|| 0`.
   */
  datatype Service = Service(
    fixedFee: int, note: string, visits: seq<Visit>,
    totalExtraCost: int, totalCost: int,
    payments: Option<ServicePayments>, discount: Option<Discount>,
    paymentStatus: string, completedAt: Option<string>)

  const EmptyService := Service(0, "", [], 0, 0, None, None, "", None)

  /**
   * The values the stepper's form reads from the job's measure, payments,
   * finance and service sub-records and from `job.rolePrices`, which the
   * rest of the model does not inspect. Blank values are "" and 0.
   */
  datatype JobRecords = JobRecords(
    measureConfirmed: bool,
    payCash: int, payCard: int, payCheque: int, payAfter: int, chequeLines: seq<ChequeLine>,
    agreementDate: string,
    financeTotal: int, financeCash: int, financeCard: int, financeCheque: int,
    discountAmount: int, discountNote: string,
    rolePrices: Keyed,
    serviceAppointmentDate: string, serviceAppointmentTime: string,
    serviceWorkNote: string, serviceMaterials: string, serviceExtraCost: int)

  /** A normalized job: `roles`, `offer` and `pendingPO` are always present. */
  datatype Job = Job(
    id: string,
    status: string,
    startType: string,
    roles: seq<Role>,
    roleFiles: map<string, RoleFiles>,
    offer: Offer,
    rejection: Option<Rejection>,
    approvalPlan: Option<PaymentPlan>,
    service: Service,
    pendingPO: seq<Stock.PendingLine>,
    records: JobRecords)

  /** The fields an `updateJobStatus` call sends: a new status and, optionally, replacements for sub-records. */
  datatype JobPatch = JobPatch(status: string, offer: Option<Offer>, rejection: Option<Rejection>, service: Option<Service>)

  /** A store that merges a patch shallowly: every field the patch carries replaces the job's. */
  function ApplyPatch(job: Job, p: JobPatch): (r: Job)
    ensures r.status == p.status
    ensures r.offer == p.offer.GetOr(job.offer)
    ensures r.rejection == (if p.rejection.Some? then p.rejection else job.rejection)
    ensures r.service == p.service.GetOr(job.service)
    ensures r.id == job.id && r.startType == job.startType && r.roles == job.roles
    ensures r == job.(status := r.status, offer := r.offer, rejection := r.rejection, service := r.service)
  {
    job.(status := p.status,
         offer := p.offer.GetOr(job.offer),
         rejection := if p.rejection.Some? then p.rejection else job.rejection,
         service := p.service.GetOr(job.service))
  }

  /**
   * The stepper's form state. Text fields are strings (empty when blank); the
   * amount fields hold what CurrencyInput delivers, whole numbers with 0 for blank.
   */
  datatype Inputs = Inputs(
    measureConfirmed: bool,
    offerTotal: int,
    rolePrices: Keyed,
    roleDiscounts: Keyed,
    rejectionReason: string,
    rejectionCategory: string,
    rejectionFollowUp: string,
    payCash: int,
    payCard: int,
    payAfter: int,
    chequeLines: seq<ChequeLine>,
    chequeDraft: ChequeLine,
    stockReady: bool,
    productionStatus: string,
    agreementDate: string,
    financeTotal: int,
    financeCash: int,
    financeCard: int,
    financeCheque: int,
    discountAmount: int,
    discountNote: string,
    serviceAppointmentDate: string,
    serviceAppointmentTime: string,
    serviceFixedFee: int,
    serviceNote: string,
    serviceVisitDate: string,
    serviceVisitTime: string,
    serviceWorkNote: string,
    serviceMaterials: string,
    serviceExtraCost: int,
    servicePaymentCash: int,
    servicePaymentCard: int,
    servicePaymentTransfer: int,
    serviceDiscount: int,
    serviceDiscountNote: string,
    serviceNewAppointmentDate: string,
    serviceNewAppointmentTime: string,
    serviceNewAppointmentNote: string)

  /** A cheque draft with every field blank. */
  const BlankCheque := ChequeLine(0, None, "", "", "")

  /** The `inputs` state before the job has been read: blanks, `stockReady`, `URETIMDE` and the 10:00 times. */
  const InitialInputs := Inputs(
    false, 0, [], [], "", "", "", 0, 0, 0, [], BlankCheque, true, "URETIMDE", "",
    0, 0, 0, 0, 0, "", "", "10:00", 0, "", "", "", "", "", 0, 0, 0, 0, 0, "", "", "10:00", "")

  /** The production choice the form starts from for a job in `status`. */
  function ProductionStatusOf(status: string): (r: string)
    ensures r == "ANLASMADA" || r == "MONTAJA_HAZIR" || r == "URETIMDE"
    ensures status == "ANLASMADA" || status == "MONTAJA_HAZIR" ==> r == status
    ensures r != "URETIMDE" ==> r == status
  {
    if status == "ANLASMADA" then "ANLASMADA" else if status == "MONTAJA_HAZIR" then "MONTAJA_HAZIR" else "URETIMDE"
  }

  /** `x || fallback` on an amount, where 0 stands for blank. */
  function OrAmount(x: int, fallback: int): (r: int)
    ensures x != 0 ==> r == x
    ensures x == 0 ==> r == fallback
  {
    if x != 0 then x else fallback
  }

  /**
   * The `[job]` effect: `{...prev, ...}` overwrites the fields read from the
   * job and keeps everything else the user has typed.
   */
  function Reload(prev: Inputs, job: Job): (r: Inputs)
    ensures r.roleDiscounts == prev.roleDiscounts && r.chequeDraft == prev.chequeDraft && r.stockReady == prev.stockReady
    ensures r.rejectionReason == prev.rejectionReason && r.rejectionCategory == prev.rejectionCategory
    ensures r.rejectionFollowUp == prev.rejectionFollowUp
    ensures r.serviceVisitDate == prev.serviceVisitDate && r.serviceVisitTime == prev.serviceVisitTime
    ensures r.servicePaymentCash == prev.servicePaymentCash && r.servicePaymentCard == prev.servicePaymentCard
    ensures r.servicePaymentTransfer == prev.servicePaymentTransfer
    ensures r.serviceDiscount == prev.serviceDiscount && r.serviceDiscountNote == prev.serviceDiscountNote
    ensures r.serviceNewAppointmentDate == prev.serviceNewAppointmentDate
    ensures r.serviceNewAppointmentTime == prev.serviceNewAppointmentTime
    ensures r.serviceNewAppointmentNote == prev.serviceNewAppointmentNote
    ensures r.offerTotal == job.offer.total && r.productionStatus == ProductionStatusOf(job.status)
    ensures r.chequeLines == job.records.chequeLines && r.rolePrices == job.records.rolePrices
    ensures r.financeTotal == OrAmount(job.records.financeTotal, job.offer.total)
    ensures r.financeCash == OrAmount(job.records.financeCash, job.records.payCash)
    ensures r.serviceAppointmentTime != ""
  {
    var rec := job.records;
    prev.(
      measureConfirmed := rec.measureConfirmed,
      offerTotal := job.offer.total,
      payCash := rec.payCash, payCard := rec.payCard, payAfter := rec.payAfter,
      chequeLines := rec.chequeLines,
      productionStatus := ProductionStatusOf(job.status),
      agreementDate := rec.agreementDate,
      financeTotal := OrAmount(rec.financeTotal, job.offer.total),
      financeCash := OrAmount(rec.financeCash, rec.payCash),
      financeCard := OrAmount(rec.financeCard, rec.payCard),
      financeCheque := OrAmount(rec.financeCheque, rec.payCheque),
      discountAmount := rec.discountAmount, discountNote := rec.discountNote,
      rolePrices := rec.rolePrices,
      serviceAppointmentDate := rec.serviceAppointmentDate,
      serviceAppointmentTime := if rec.serviceAppointmentTime != "" then rec.serviceAppointmentTime else "10:00",
      serviceFixedFee := job.service.fixedFee,
      serviceNote := job.service.note,
      serviceWorkNote := rec.serviceWorkNote,
      serviceMaterials := rec.serviceMaterials,
      serviceExtraCost := rec.serviceExtraCost)
  }

  /** Only the latest job counts: what an earlier job loaded is overwritten, the typed fields stay. */
  lemma ReloadLatestWins(prev: Inputs, first: Job, second: Job)
    ensures Reload(Reload(prev, first), second) == Reload(prev, second)
  {
  }

  /** Handing the same job in again leaves the form as it is. */
  lemma ReloadIdempotent(prev: Inputs, job: Job)
    ensures Reload(Reload(prev, job), job) == Reload(prev, job)
  {
    ReloadLatestWins(prev, job, job);
  }

  /** `role.reduce(...)` over the job's roles of the price stored under each role key. */
  function RoleSum(roles: seq<Role>, prices: Keyed): int {
    if roles == [] then 0 else Lookup(prices, RoleKey(roles[0])) + RoleSum(roles[1..], prices)
  }

  ghost predicate RoleKeysDistinct(roles: seq<Role>) {
    forall i, j :: 0 <= i < j < |roles| ==> RoleKey(roles[i]) != RoleKey(roles[j])
  }

  function RoleKeySet(roles: seq<Role>): (ks: set<string>)
    ensures forall i :: 0 <= i < |roles| ==> RoleKey(roles[i]) in ks
    ensures forall k :: k in ks ==> exists i :: 0 <= i < |roles| && RoleKey(roles[i]) == k
  {
    if roles == [] then {} else {RoleKey(roles[0])} + RoleKeySet(roles[1..])
  }
}
