# Job lifecycle of the md.web jobs screen, in Dafny

This project models the job-lifecycle engine of the md.web front end. The engine lives inside
the `JobStepper` component and a few top-level helpers of `md.web/src/pages/JobsList.jsx`,
plus two small pieces of `md.web/src/pages/Dashboard.jsx`. It covers:

- the two stage flows (standard and service), status classification, `getNextStage` and the
  done/current/pending comparison (`stages.dfy`);
- the view cursor `selectedStage`, with its effect, `markStage`, `advanceToNextStage` and
  `skipAdvance` (`stepper.dfy`);
- the stage-transition validator (`validation.dfy`);
- the payment arithmetic: cheque totals, payment plan, weighted cheque days, offer total,
  agreement closure and the finance balance (`payments.dfy`);
- the stock table and the reservation lines (`stock.dfy`, plus the `JobStepper` class);
- the negotiation ledger, rejection and reactivation (`negotiation.dfy`);
- the service-visit tracker and the service balance (`service.dfy`);
- `toggleRole` and the `CurrencyInput` digit extraction (`helpers.dfy`);
- the dashboard's time buckets and pending-appointment list (`dashboard.dfy`).

Supporting modules:

- `wrappers.dfy` holds `Option` and `Result`.
- `amounts.dfy` models a JavaScript object from keys to numbers (`rolePrices`,
  `roleDiscounts`) as an association list, with the facts about it as separate lemmas.
- `jobs.dfy` holds the job snapshot, the form inputs, the `[job]` effect that reloads the
  form from a job (`Reload`), and `ApplyPatch`.

## How remote calls are modelled

The screen never changes a job itself. It sends a payload to the data service, and the
updated job comes back through the parent (`onUpdated` sets the selected job).

- Each handler is modelled as the function computing the payload it sends: a `JobPatch`
  for `updateJobStatus`, or a dedicated record for other calls.
- The server's answer is modelled by `Jobs.ApplyPatch`. It assumes the store merges the
  patch shallowly: the status is replaced, and each top-level object that is present is
  replaced.
- In the `JobStepper` class, the outcome of a remote call is a parameter
  (`Result<Job, string>`).

Component state that the source changes through setters is a class, `Stepper.JobStepper`.
Its fields are `job`, `inputs`, `selectedStage`, `stockItems`, `stockError`,
`selectedStock`, `reserveQty`, `reservedLines`, `pendingPO` and `actionError`. Each handler
is a method that states the new value of every field.

The two loops of the source that update variables are methods with loop invariants, each
proved against a specification function:

- `Validation.ValidateStageTransition` (the `forEach` that pushes errors);
- `Negotiation.DiscountRolePrices` (the `forEach` that fills `newRolePrices`).

## Where the code and its description disagree

In each case the model follows the code.

- **Reactivation does not clear the rejection.** The reactivation payload sets `status` and
  `offer` only. Under the shallow merge assumed by `Jobs.ApplyPatch`, `rejection` therefore
  stays on the job (`Negotiation.RejectThenReactivate`). Whether the store itself drops it
  is not visible in the screen's code.
- **A non-ready reservation adds the whole quantity to `reserved`.** This holds even when
  more is requested than is available (`Stock.ShortReservationExample`: 5 on hand and 2
  reserved, reserve 5, and reserved becomes 7).
- **Agreement closure compares exactly.** It refuses unless the payment total equals the
  offer total exactly, while the validator allows 0.01. On whole amounts the two tests
  coincide (`Payments.ToleranceIsExactOnWholeAmounts`).
- **The cheque-split guard never fires.** It compares the cheque total with itself.
- **`skipAdvance` has no observable effect on the cursor.** When the job's status or flow
  changed, the `[job.id, job.status, activeFlow]` effect moves the cursor to the new stage
  anyway. When they did not change, the stage `advanceToNextStage` aims at is the stage the
  action was taken in, so it does not move (`Stepper.SkipAdvanceUnobservable`).

## Model

| member | source | states |
|---|---|---|
| Stages.FlowFor | md.web/src/pages/JobsList.jsx:1049-1051 | the service flow is chosen iff the start type is `SERVIS`, otherwise the standard flow; never empty |
| Stages.OwnerIndex | md.web/src/pages/JobsList.jsx:1053-1055 | the index of the first stage listing the status, or -1 when none lists it |
| Stages.FindStageForFlow | md.web/src/pages/JobsList.jsx:1053-1055 | total: a stage of the flow that lists the status when one does, else the flow's first stage |
| Stages.CurrentStage | md.web/src/pages/JobsList.jsx:1058 | a stage of the job's flow: the one listing a non-empty status, else the first stage; an empty status gives the first stage of either flow |
| Stages.DefaultInFirstStage | md.web/src/pages/JobsList.jsx:1058 | `OLCU_RANDEVU_BEKLIYOR` classifies to the first stage of both flows |
| Stages.StateOf | md.web/src/pages/JobsList.jsx:1070-1076 | the current stage is reported current, a flow stage reported current is the current stage, and only a stage of the flow can be pending |
| Stages.StandardFlowDisjoint | md.web/src/pages/JobsList.jsx:830-838 | no status is listed by two stages of the standard flow |
| Stages.ServiceFlowDisjoint | md.web/src/pages/JobsList.jsx:841-847 | no status is listed by two stages of the service flow |
| Stages.FlowIdsDistinct | md.web/src/pages/JobsList.jsx:830-847 | stage ids are distinct within each flow |
| Stages.ListedStatusClassifies | md.web/src/pages/JobsList.jsx:1053-1055 | in a flow without shared statuses, a listed status classifies to the stage that lists it |
| Stages.TokensNonEmpty | md.web/src/pages/JobsList.jsx:830-847 | no listed status is empty, so defaulting an empty status hides no listed one |
| Stages.ClassificationExact | md.web/src/pages/JobsList.jsx:1049-1057 | every status listed by the job's flow classifies to exactly the stage that lists it |
| Stages.UnlistedByShape | md.web/src/pages/JobsList.jsx:830-838 | a status whose length and first letter match no standard status is listed by no standard stage |
| Stages.UnlistedStatusesClassifyAsMeasure | md.web/src/pages/JobsList.jsx:830-838 | `ANLASILAMADI`, `TEKLIF_HAZIR`, `ONAY_BEKLIYOR` and the empty status put a standard job in `measure` |
| Stages.StockPanelIdUnreachable | md.web/src/pages/JobsList.jsx:2829 | no classification yields `approval`, the id the stock panel is shown for |
| Stages.NextStage | md.web/src/pages/JobsList.jsx:852-856 | none for an unknown id or the last stage; otherwise the stage after the given one |
| Stages.NextStageSteps | md.web/src/pages/JobsList.jsx:852-856 | from stage i the next stage is stage i+1, and from the last stage there is none |
| Stages.NextStageOfUnknownId | md.web/src/pages/JobsList.jsx:852-856 | an id of no standard stage has no next stage |
| Stages.StateOfFollowsIndex | md.web/src/pages/JobsList.jsx:1070-1076 | a stage is done iff its index is below the current stage's, current iff equal, pending iff above |
| Stages.IndexOfOwnId | md.web/src/pages/JobsList.jsx:1071-1072 | with distinct ids, looking up a stage's id gives back its index |
| Stages.UnknownStageReportedDone | md.web/src/pages/JobsList.jsx:1070-1076 | an id missing from the flow (index -1) is reported done |
| Stepper.ProductionPayloadOf | md.web/src/pages/JobsList.jsx:3190-3193 | the payload carries the chosen production status, and an agreement date exactly for `ANLASMADA` with a date entered |
| Stepper.ErrorText | md.web/src/pages/JobsList.jsx:1131 | a non-empty error message is shown as is; an empty one shows exactly the fallback |
| Stepper.JobChanged | md.web/src/pages/JobsList.jsx:1061-1065 | when id, status and flow are all the same, the job is in the same stage |
| Stepper.AdvanceTarget | md.web/src/pages/JobsList.jsx:1102-1108 | a stage of the updated job's flow: the one listing its status, else the first, with no default for an empty status |
| Stepper.CursorAfterAction | md.web/src/pages/JobsList.jsx:1102-1129 | after a successful action the cursor shows the updated job's stage when id, status or flow changed, and otherwise stays where it was, whatever `skipAdvance` says |
| Stepper.JobStepper.constructor | md.web/src/pages/JobsList.jsx:861-937 | the cursor starts on the job's stage, nothing is selected or reserved, the quantity is 1, `pendingPO` is the job's, and the form is the initial form reloaded from the job |
| Stepper.JobStepper.MarkStage | md.web/src/pages/JobsList.jsx:1068 | only the cursor moves; the job and its status are untouched |
| Stepper.JobStepper.ReceiveJob | md.web/src/pages/JobsList.jsx:995-1065 | the form is reloaded from the new job, and the cursor resets to its stage exactly when id, status or flow changed |
| Stepper.JobStepper.Act | md.web/src/pages/JobsList.jsx:1102-1135 | on failure only the error changes (`İşlem başarısız` for an empty message); on success the error clears, the job is replaced, the form is reloaded from it and the cursor follows `CursorAfterAction` |
| Stepper.JobStepper.UpdateProduction | md.web/src/pages/JobsList.jsx:3189-3201 | sends the production payload and finishes as `act` (error, job, form and cursor) with `skipAdvance` set for `URETIMDE` and `ANLASMADA` |
| Stepper.JobStepper.LoadStock | md.web/src/pages/JobsList.jsx:1163-1177 | the fetched items with `available` recomputed, or the error text (default `Stok listesi alınamadı`); availability stays consistent |
| Stepper.JobStepper.SelectStock | md.web/src/pages/JobsList.jsx:1268-1271 | selects the item and resets the quantity to 1 |
| Stepper.JobStepper.SetReserveQty | md.web/src/pages/JobsList.jsx:3146 | sets the quantity and nothing else |
| Stepper.JobStepper.AddReservedLine | md.web/src/pages/JobsList.jsx:1273-1299 | a no-op without a selection or with a quantity of at most 0; otherwise the line is added, the selection cleared and line ids stay unique |
| Stepper.JobStepper.RemoveLine | md.web/src/pages/JobsList.jsx:1301-1303 | drops the line with that id; line ids stay unique |
| Stepper.JobStepper.CommitReservation | md.web/src/pages/JobsList.jsx:2963-2989 | pending lines, the stock table after the reservation, no reserved lines; availability stays consistent |
| Stepper.JobStepper.SaveReservation | md.web/src/pages/JobsList.jsx:2938-2991 | nothing with no lines; on failure only the error; on success the reservation is committed, the error clears, the form is reloaded and the cursor follows the updated job; the stock error, selection and quantity are always kept |
| Stepper.JobStepper.AddCheque | md.web/src/pages/JobsList.jsx:2634-2655 | an amount of 0 is ignored; otherwise the draft is appended, the draft is blanked and the cheque total grows by the amount |
| Stepper.JobStepper.RemoveCheque | md.web/src/pages/JobsList.jsx:2685-2690 | removes the cheque at that position and nothing else |
| Stepper.AdvanceTargetIsStageOf | md.web/src/pages/JobsList.jsx:1102-1108 | the stage `advanceToNextStage` aims at equals the updated job's classified stage, even for an empty status |
| Stepper.SkipAdvanceUnobservable | md.web/src/pages/JobsList.jsx:1111-1115 | the cursor ends in the same place whether or not `skipAdvance` is set |
| Validation.ValidateStageTransition | md.web/src/pages/JobsList.jsx:948-992 | the loop collects exactly the expected errors, and the result is true iff there are none |
| Validation.RoleFileErrorsMembership | md.web/src/pages/JobsList.jsx:955-964 | an error is in the list iff some role produced it |
| Validation.RoleFileErrorsExact | md.web/src/pages/JobsList.jsx:958-963 | a missing-drawing error for a name appears iff some role of that name lacks those files |
| Validation.RoleFileErrorsCount | md.web/src/pages/JobsList.jsx:955-964 | one error per role lacking measure files plus one per role lacking technical files |
| Validation.CustomerMeasurePricingRule | md.web/src/pages/JobsList.jsx:951-965 | moving a customer-measure job to pricing yields exactly the role-file errors, none iff every role has both kinds of files |
| Validation.CountZero | md.web/src/pages/JobsList.jsx:955-964 | no missing files are counted iff every role has both kinds of files |
| Validation.MeasureAppointmentPricingRule | md.web/src/pages/JobsList.jsx:969-971 | moving a measure-appointment job to pricing fails iff the measure is not confirmed |
| Validation.OfferReadyRule | md.web/src/pages/JobsList.jsx:974-980 | `TEKLIF_HAZIR` passes iff the role-price sum (or the offer total when that sum is 0) is positive |
| Validation.ApprovalRule | md.web/src/pages/JobsList.jsx:982-988 | `ONAY_BEKLIYOR` passes iff the payment plan matches the offer total (within 0.01) |
| Validation.FreeTransitions | md.web/src/pages/JobsList.jsx:948-992 | any other target produces no errors |
| Validation.ApprovalExample | md.web/src/pages/JobsList.jsx:982-988 | a plan of cash plus cheques equal to the total passes |
| Validation.GateAndValidatorDisagree | md.web/src/pages/JobsList.jsx:1745-1750 | a job whose documents satisfy the pricing gate can still fail the validator, which reads `roleFiles` |
| Payments.ChequeTotalAppend | md.web/src/pages/JobsList.jsx:1242-1245 | the cheque total of a concatenation is the sum of the totals |
| Payments.ChequeTotalBounds | md.web/src/pages/JobsList.jsx:1242-1245 | with non-negative amounts the cheque total is non-negative and at least every single cheque |
| Payments.PaymentTotalParts | md.web/src/pages/JobsList.jsx:1247-1254 | cash, card, after-delivery and each cheque count once in the plan total |
| Payments.OfferTotalValue | md.web/src/pages/JobsList.jsx:1236-1240 | the locally entered offer total when non-zero, else the job's |
| Payments.AddCheque | md.web/src/pages/JobsList.jsx:2634-2655 | a draft of amount 0 is ignored; otherwise appended, and the total grows by its amount |
| Payments.RemoveChequeAt | md.web/src/pages/JobsList.jsx:2685-2690 | removes exactly the cheque at that position (none when out of range), and the total drops by its amount |
| Payments.RemoveUndoesAddCheque | md.web/src/pages/JobsList.jsx:2634-2690 | deleting the cheque just added restores the list |
| Payments.ChequeDays | md.web/src/pages/JobsList.jsx:1260-1262 | a cheque's term in rounded days is never negative; without a due date it is due now |
| Payments.AvgChequeDays | md.web/src/pages/JobsList.jsx:1256-1266 | 0 when the cheque total is not positive, otherwise the rounded weighted mean |
| Payments.MaxDays | md.web/src/pages/JobsList.jsx:1256-1266 | an upper bound on every cheque's term |
| Payments.WeightedBounds | md.web/src/pages/JobsList.jsx:1259-1263 | the amount-weighted day sum lies between 0 and the total times the longest term |
| Payments.AvgChequeDaysWithinTerms | md.web/src/pages/JobsList.jsx:1256-1266 | with non-negative amounts the average lies between 0 and the longest term |
| Payments.UniformTermAverage | md.web/src/pages/JobsList.jsx:1256-1266 | cheques all falling due on the same day average exactly that term |
| Payments.CompleteAgreement | md.web/src/pages/JobsList.jsx:2787-2811 | succeeds iff the payment total equals the offer total exactly; carries the plan and the offer with the chosen total |
| Payments.ToleranceIsExactOnWholeAmounts | md.web/src/pages/JobsList.jsx:985 | on whole amounts the validator's 0.01 test is exact equality |
| Payments.FinanceDiff | md.web/src/pages/JobsList.jsx:3443-3455 | zero iff received before + now + discount equals the offer total, positive iff short |
| Payments.LabelOf | md.web/src/pages/JobsList.jsx:3481-3484 | shortfall iff the difference is positive, excess iff negative, settled iff zero |
| Payments.PreReceived | md.web/src/pages/JobsList.jsx:3444-3447 | 0 without a recorded plan; otherwise the plan's cash, card and cheques, without the after-delivery part |
| Payments.FinishPaymentsCount | md.web/src/pages/JobsList.jsx:3448-3455 | each payment taken at closing, and the discount, lowers the difference by its amount |
| Payments.CollectingDiffSettles | md.web/src/pages/JobsList.jsx:3443-3455 | taking the shown difference in cash settles the balance |
| Payments.CloseFinancePayload | md.web/src/pages/JobsList.jsx:3517-3529 | the entered total or the offer total; cash, card and cheque each as entered; a discount exactly when positive |
| Stock.Available | md.web/src/pages/JobsList.jsx:1168-1171 | `max(0, onHand - reserved)`: never negative, and either 0 or the difference |
| Stock.NormalizeAll | md.web/src/pages/JobsList.jsx:1167-1172 | every loaded item keeps its fields and gets a consistent, non-negative `available` |
| Stock.StockStatus | md.web/src/pages/JobsList.jsx:1196-1202 | each health bucket is characterised by its availability range |
| Stock.Health.Label | md.web/src/pages/JobsList.jsx:1196-1202 | every band has a non-blank label, a dash exactly for the missing item |
| Stock.Health.Tone | md.web/src/pages/JobsList.jsx:1196-1202 | danger exactly for sold out and critical, warning for low, success for healthy |
| Stock.LabelIdentifiesHealth | md.web/src/pages/JobsList.jsx:1196-1202 | no two bands share a label |
| Stock.StockStatusMonotone | md.web/src/pages/JobsList.jsx:1196-1202 | more availability never gives a worse health |
| Stock.AddLine | md.web/src/pages/JobsList.jsx:1273-1299 | a no-op without a selection or with quantity at most 0; otherwise bumps the existing line or appends a new one |
| Stock.RemoveLine | md.web/src/pages/JobsList.jsx:1301-1303 | a line is kept iff it was there and has another id |
| Stock.RemoveLineConcat | md.web/src/pages/JobsList.jsx:1301-1303 | removal works line by line over a concatenation, so kept lines stay in order and keep their multiplicity |
| Stock.RemoveLineSingle | md.web/src/pages/JobsList.jsx:1301-1303 | a single line is kept unchanged iff its id differs, else dropped |
| Stock.AddLineKeepsUniqueIds | md.web/src/pages/JobsList.jsx:1273-1299 | adding a line keeps line ids unique |
| Stock.RemoveLineKeepsUniqueIds | md.web/src/pages/JobsList.jsx:1301-1303 | removing a line keeps line ids unique |
| Stock.AddLineQty | md.web/src/pages/JobsList.jsx:1273-1299 | the item's reserved quantity grows by the amount and other items' quantities are unchanged |
| Stock.BumpQtyOf | md.web/src/pages/JobsList.jsx:1277-1281 | bumping changes only the quantity of that id |
| Stock.QtyOfAppend | md.web/src/pages/JobsList.jsx:1283-1296 | appending a line gives that id its quantity and leaves the others |
| Stock.RemoveUndoesAdd | md.web/src/pages/JobsList.jsx:1273-1303 | removing a freshly added item's line restores the list |
| Stock.RemoveAppended | md.web/src/pages/JobsList.jsx:1301-1303 | removing the line just appended restores the list |
| Stock.PendingOf | md.web/src/pages/JobsList.jsx:2952-2954 | exactly the lines asking for more than is available, with the missing amount positive |
| Stock.PendingOfConcat | md.web/src/pages/JobsList.jsx:2952-2954 | the pending list of a concatenation is the concatenation of the pending lists, so short lines appear once each, in order |
| Stock.PendingOfCons | md.web/src/pages/JobsList.jsx:2952-2954 | the pending list of a non-empty list starts with what its first line contributes |
| Stock.PendingOfSingle | md.web/src/pages/JobsList.jsx:2952-2954 | a single line contributes its shortfall iff it asks for more than is available, else nothing |
| Stock.FirstLineFor | md.web/src/pages/JobsList.jsx:2977 | the line for the item when there is one, with its quantity |
| Stock.ReserveItem | md.web/src/pages/JobsList.jsx:2976-2986 | items without a line are unchanged; `ready` lowers `onHand` (floored at 0), otherwise `reserved` grows by the whole quantity; every other field of the item is kept |
| Stock.ApplyReservation | md.web/src/pages/JobsList.jsx:2975-2988 | each item is reserved independently and the table keeps its length |
| Stock.ReservationKeepsConsistent | md.web/src/pages/JobsList.jsx:2975-2988 | after a reservation every `available` is consistent and non-negative |
| Stock.ShortReservationExample | md.web/src/pages/JobsList.jsx:2952-2986 | reserving 5 of 3 available leaves one pending line missing 2 and adds all 5 to `reserved` |
| Negotiation.OriginalTotal | md.web/src/pages/JobsList.jsx:1957-1960 | the offer total when non-zero, else the sum of the roles' prices |
| Negotiation.NegotiationEntry | md.web/src/pages/JobsList.jsx:1961-1963 | the final total is the original total less the discount total |
| Negotiation.ConfirmNegotiation | md.web/src/pages/JobsList.jsx:2159-2192 | status `ANLASMA_YAPILIYOR`; the history grows by one with earlier entries unchanged; the new total is original minus discounts |
| Negotiation.DiscountRolePrices | md.web/src/pages/JobsList.jsx:2170-2175 | the loop builds each role's new price from the old price and its discount |
| Negotiation.DiscountedPricesLookup | md.web/src/pages/JobsList.jsx:2170-2175 | each role's new price is its old price minus its discount |
| Negotiation.DiscountedPricesKeys | md.web/src/pages/JobsList.jsx:2170-2175 | the new prices have exactly the roles' keys |
| Negotiation.DiscountedPricesUnique | md.web/src/pages/JobsList.jsx:2170-2175 | no key appears twice in the new prices |
| Negotiation.RoleSumPointwise | md.web/src/pages/JobsList.jsx:1957-1960 | summing pointwise differences over the roles is the difference of the sums |
| Negotiation.RoleSumOfDiscounts | md.web/src/pages/JobsList.jsx:1962-1963 | with distinct role keys and discounts only for roles, the role-wise sum is the discount total |
| Negotiation.NegotiationKeepsTotalEqualToRolePrices | md.web/src/pages/JobsList.jsx:2159-2192 | when the offer total was the role-price sum, the new total is the sum of the new role prices |
| Negotiation.DiscountIsNotClamped | md.web/src/pages/JobsList.jsx:2173-2174 | a discount above the price gives a negative price (100 - 150 = -50) |
| Negotiation.RejectionPatch | md.web/src/pages/JobsList.jsx:2299-2314 | refused iff the reason or the category is empty; otherwise `ANLASILAMADI` with `lastOffer` the job's offer |
| Negotiation.ReactivationPatch | md.web/src/pages/JobsList.jsx:2484-2498 | status `FIYAT_VERILDI` and the last offer stamped with the reactivation; no rejection field |
| Negotiation.RejectThenReactivate | md.web/src/pages/JobsList.jsx:2299-2498 | rejecting then reactivating restores the offer, moves a standard job from `measure` to `pricing`, and keeps the rejection |
| Service.FirstWith | md.web/src/pages/JobsList.jsx:3715 | the first visit with the status, or -1 when none has it |
| Service.SchedulePatch | md.web/src/pages/JobsList.jsx:3612-3636 | refused iff the date or the fee is missing; otherwise the service record keeps its other fields, takes the entered fee and note, and holds exactly the one first visit |
| Service.FirstVisit | md.web/src/pages/JobsList.jsx:3626-3631 | id 1, scheduled, on the entered date, at the entered time or 10:00 when none is given; no visit time, completion or work recorded |
| Service.StartVisits | md.web/src/pages/JobsList.jsx:3714-3722 | only the first scheduled visit changes: it becomes in progress with the stamp, and all its other fields are kept |
| Service.StartPatch | md.web/src/pages/JobsList.jsx:3713-3734 | status `SERVIS_YAPILIYOR` with the started visits |
| Service.CompleteVisits | md.web/src/pages/JobsList.jsx:4005-4016 | only the first in-progress visit changes: it is completed with the work note, materials, extra cost and stamp, and all its other fields are kept |
| Service.ContinueAfterWorkPatch | md.web/src/pages/JobsList.jsx:4004-4025 | refused iff the work note is empty; otherwise `SERVIS_DEVAM_EDIYOR` with the completed visits |
| Service.FinalizePatch | md.web/src/pages/JobsList.jsx:4033-4062 | refused iff the work note is empty; otherwise awaiting payment, with the total cost the fee plus the extra costs |
| Service.NewVisit | md.web/src/pages/JobsList.jsx:3848-3856 | id is the number of visits plus one; entered date, note, and time or 10:00; in progress iff a visit date is given, and then visited at that date joined by `T` to the visit time or 10:00; nothing completed or worked yet |
| Service.NewAppointmentPatch | md.web/src/pages/JobsList.jsx:3847-3866 | refused iff no new date; otherwise the new visit appended and the status set by the visit date |
| Service.TotalCost | md.web/src/pages/JobsList.jsx:4080-4082 | the stored total cost when non-zero, else fee plus extra costs |
| Service.ReceivedCountsEachPart | md.web/src/pages/JobsList.jsx:4084-4088 | cash, card, transfer and the discount each lower the balance by their amount |
| Service.CanClose | md.web/src/pages/JobsList.jsx:4280 | closing is enabled iff the amount received equals the total cost and a positive discount carries a note |
| Service.Balance | md.web/src/pages/JobsList.jsx:4084-4089 | zero iff the amount received, discount included, equals the total cost |
| Service.PaidService | md.web/src/pages/JobsList.jsx:4260-4267 | records the three payments and a discount exactly when positive, keeping visits and costs |
| Service.PaymentContinuePatch | md.web/src/pages/JobsList.jsx:4255-4270 | `SERVIS_DEVAM_EDIYOR` with the recorded payments |
| Service.ClosePatch | md.web/src/pages/JobsList.jsx:4280-4300 | possible iff the balance is 0 and any discount has a note; then paid and closed |
| Service.SequentialIdsKept | md.web/src/pages/JobsList.jsx:3612-4062 | visit ids stay 1..n through scheduling, start, completion and new appointments |
| Service.ExtraCostSumUpdate | md.web/src/pages/JobsList.jsx:4048 | replacing one visit changes the extra-cost sum by the difference |
| Service.FinalizeCost | md.web/src/pages/JobsList.jsx:4033-4062 | the finalized total cost is the fee plus every visit's extra cost |
| Service.BalanceAfterFinalize | md.web/src/pages/JobsList.jsx:4048-4089 | after finalizing, the balance is zero iff the payments cover fee plus extras |
| Service.ServicePaymentExample | md.web/src/pages/JobsList.jsx:4080-4089 | 500 + 150 with 600 cash leaves 50 open; a 50 discount closes only with a note |
| FormHelpers.WithoutId | md.web/src/pages/JobsList.jsx:247 | keeps exactly the roles with another id |
| FormHelpers.WithoutIdConcat | md.web/src/pages/JobsList.jsx:247 | the filter works role by role over a concatenation, so kept roles stay in order and keep their multiplicity |
| FormHelpers.WithoutIdSingle | md.web/src/pages/JobsList.jsx:247 | a single role is kept iff its id differs |
| FormHelpers.ToggleRole | md.web/src/pages/JobsList.jsx:243-251 | removes a present role, appends an absent one |
| FormHelpers.ToggleTwiceRestores | md.web/src/pages/JobsList.jsx:243-251 | toggling an absent role twice restores the list |
| FormHelpers.Cleaned | md.web/src/pages/JobsList.jsx:91 | keeps only digits, `.` and `,` |
| FormHelpers.DigitsOnly | md.web/src/pages/JobsList.jsx:94 | keeps only digits |
| FormHelpers.CurrencyValue | md.web/src/pages/JobsList.jsx:88-100 | blank iff the input holds no digit, else the number its digits spell |
| FormHelpers.CleaningKeepsDigits | md.web/src/pages/JobsList.jsx:91-94 | the first cleaning step loses no digit |
| FormHelpers.DigitsRoundTrip | md.web/src/pages/JobsList.jsx:99 | reading back a number's decimal digits gives the number |
| FormHelpers.CurrencyValueOfFormatted | md.web/src/pages/JobsList.jsx:88-100 | a number typed with a thousands separator anywhere delivers that number |
| Dashboard.FormatTimeAgo | md.web/src/pages/Dashboard.jsx:13-27 | blank iff no date; minutes under an hour (negative too); `floor(diffMs / 3600000)` hours, 1..23, under a day; yesterday for one day; days otherwise |
| Dashboard.TimeAgoText | md.web/src/pages/Dashboard.jsx:22-26 | only the blank bucket shows no text |
| Dashboard.TodayUnreachable | md.web/src/pages/Dashboard.jsx:24 | the `Bugün` bucket is never produced |
| Dashboard.FutureDateInMinutes | md.web/src/pages/Dashboard.jsx:22 | a date in the future lands in the minutes bucket with a negative count |
| Dashboard.BucketsMonotone | md.web/src/pages/Dashboard.jsx:13-27 | an older date never lands in a finer bucket |
| Dashboard.FilterPending | md.web/src/pages/Dashboard.jsx:54-55 | exactly the jobs whose status is pending |
| Dashboard.PendingAppointments | md.web/src/pages/Dashboard.jsx:54-56 | the first 5 pending jobs in input order: a prefix of the filtered list, all of it when there are at most 5 |
| Dashboard.PendingKeepsOrder | md.web/src/pages/Dashboard.jsx:54-56 | the list keeps the input order |
| Jobs.ApplyPatch | md.web/src/pages/JobsList.jsx:2159-2192 | the status is replaced and each sent top-level object replaces the job's; every other field of the job is kept |
| Jobs.ProductionStatusOf | md.web/src/pages/JobsList.jsx:1020 | always one of the three production choices; `ANLASMADA` and `MONTAJA_HAZIR` are kept, anything else reads as `URETIMDE` |
| Jobs.OrAmount | md.web/src/pages/JobsList.jsx:1027-1031 | the JavaScript "or" on an amount: the value when non-zero, else the fallback |
| Jobs.Reload | md.web/src/pages/JobsList.jsx:995-1046 | the fields the effect reads are taken from the job (finance values falling back to the offer and payments, the appointment time to 10:00); everything the user typed elsewhere is kept |
| Jobs.ReloadLatestWins | md.web/src/pages/JobsList.jsx:995-1046 | reloading from a second job overwrites everything the first one loaded |
| Jobs.ReloadIdempotent | md.web/src/pages/JobsList.jsx:995-1046 | reloading from the same job twice changes nothing more |

## Left out

- Remote calls (`updateJobStatus`, `startJobApproval`, `updateStockStatus`,
  `updateProductionStatus`, `closeFinance`, and the others) are not modelled. The model
  computes their payloads. The store's answer is assumed to be the shallow merge
  `Jobs.ApplyPatch`. In `JobStepper` the outcome is a parameter.
- The data service's local helpers (`applyLocalJobPatch`, `applyLocalStockReservation`,
  `createLocalPurchaseOrders`), the document store and the log store (`pushLog`, log
  loading) are server or I/O plumbing.
- Async control, loading flags and modal flags are not modelled.
- `normalizeJob` is not modelled: the updated job is taken as already normalized.
- Clocks and dates: `new Date()`, ISO strings, `toISOString().slice(0, 10)` and `toTimeString`
  are parameters. "Today", "now" and a cheque's due date are integer millisecond offsets or
  given strings.
- Stepper.ProductionPayloadOf: passes the entered agreement date through instead of
  re-formatting it as an ISO date.
- Locale formatting (`Intl.NumberFormat`, `formatNumber`, `toLocaleString`) and the displayed
  value of `CurrencyInput` are not modelled. Error messages are data constructors, not
  formatted text.
- Text search filters over jobs, stock and customers are not modelled. They rely on Unicode
  `toLowerCase`.
- FormHelpers.CurrencyValue: `Number(numericOnly)` is exact here. Floating-point rounding of
  very long digit strings is not captured.
- Amounts are whole numbers, since `CurrencyInput` only ever yields whole numbers. The
  validator's 0.01 tolerance is evaluated in `real`.
- SetReserveQty: the quantity is an `int`. The source reads it with `Number(...)` from a
  number field (JobsList.jsx:3146), which can deliver a fraction; fractional quantities
  are not modelled.
- Jobs.Reload: the job's measure, payments, finance and service sub-records are not
  modelled field by field. The values the `[job]` effect reads from them are carried by
  `Jobs.JobRecords`. Form fields the rest of the model never reads (`measureNote`,
  `appointment`, `measureCall`, `orderNo`, `cariCode`, the assembly fields,
  `serviceExtraNote`, `serviceCloseNote`) are not part of `Inputs`.
- ReceiveJob: the effect depends on `[job]`, so it runs whenever the parent passes a new
  job object, which happens after every successful action. `ReceiveJob` models that
  case and always reloads. A re-render with the same object, which does not re-run the
  effect, is not modelled.
- Act, UpdateProduction and SaveReservation: on success the form is reloaded through
  `ReceiveJob`, and the new form is stated only as `Jobs.Reload` of the old one.
- Dashboard.FormatTimeAgo: a date string that `new Date` cannot parse makes the difference
  NaN. The source then fails every comparison and shows the days text with NaN as the
  number. The model takes the difference as an integer and does not model this case.
- Service.FirstVisit: the source's first visit has no `note`, `visitedAt`, `completedAt`
  or work fields. The model fills them with empty text, `None` and 0, which is how the
  page reads an absent field.
- TimeAgoText: its contract only says which bucket shows no text. The texts themselves
  are the number followed by a fixed suffix and are not stated further.
- Service handlers: copying `visits` and overwriting one element, or pushing onto the copy,
  is modelled on values (`seq<Visit>`) rather than by in-place updates to a local array.
  Aliasing cannot arise, because the copy is fresh.
- `toMessage` is not modelled: its `JSON.stringify` fallback is a foreign call. Errors
  arrive as text.
- JSX rendering and badge markup are not modelled.
- `renderStatus` tones, `getDashboardData` rendering and the rest of `Dashboard.jsx` are
  not modelled.
