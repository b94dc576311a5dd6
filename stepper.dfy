/**
 * The `JobStepper` component's own state: the view cursor `selectedStage`,
 * the form inputs, the stock table and reservation lines, the pending
 * purchase lines and the last action error, with the handlers that change
 * them step by step (JobsList.jsx:858-1303 and the reservation, cheque and
 * production handlers).
 */
module Stepper {
  import opened Wrappers
  import opened Jobs
  import Stages
  import Stock
  import Payments

  /** The stage the stepper shows as current for a job. */
  function StageOf(job: Job): Stages.Stage {
    Stages.CurrentStage(job.status, job.startType)
  }

  /**
   * The effect `[job.id, job.status, activeFlow]` fires when any of these
   * differ; when none does, the job is still in the same stage.
   */
  function JobChanged(a: Job, b: Job): (changed: bool)
    ensures !changed ==> StageOf(a) == StageOf(b)
  {
    a.id != b.id || a.status != b.status || Stages.FlowFor(a.startType) != Stages.FlowFor(b.startType)
  }

  /** The stage `advanceToNextStage` moves to: the updated status's stage, without the empty-status default. */
  function AdvanceTarget(updated: Job): (s: Stages.Stage)
    ensures s in Stages.FlowFor(updated.startType)
    ensures Stages.Listed(updated.status, Stages.FlowFor(updated.startType)) ==> updated.status in s.statuses
    ensures !Stages.Listed(updated.status, Stages.FlowFor(updated.startType)) ==> s == Stages.FlowFor(updated.startType)[0]
  {
    Stages.FindStageForFlow(updated.status, Stages.FlowFor(updated.startType))
  }

  /**
   * Where the cursor ends after a successful action: the parent hands the
   * updated job back (the effect resets the cursor when the job changed),
   * then, unless `skipAdvance`, the cursor moves to the updated status's
   * stage when that differs from the stage the action was taken in. Either
   * way the cursor ends on the updated job's stage when the job changed,
   * and stays where it was otherwise.
   */
  function CursorAfterAction(before: Job, cursor: string, updated: Job, skipAdvance: bool): (c: string)
    ensures JobChanged(before, updated) ==> c == StageOf(updated).id
    ensures !JobChanged(before, updated) ==> c == cursor
  {
    AdvanceTargetIsStageOf(updated);
    var afterEffect := if JobChanged(before, updated) then StageOf(updated).id else cursor;
    if !skipAdvance && AdvanceTarget(updated).id != StageOf(before).id then AdvanceTarget(updated).id
    else afterEffect
  }

  /** The production statuses whose update does not advance the cursor. */
  predicate ProductionSkipsAdvance(status: string) {
    status == "URETIMDE" || status == "ANLASMADA"
  }

  /** What "Güncelle" on the production panel sends: an agreement date only with ANLASMADA. */
  datatype ProductionPayload = ProductionPayload(status: string, agreementDate: Option<string>)

  function ProductionPayloadOf(inp: Inputs): (p: ProductionPayload)
    ensures p.status == inp.productionStatus
    ensures p.agreementDate.Some? <==> inp.productionStatus == "ANLASMADA" && inp.agreementDate != ""
    ensures p.agreementDate.Some? ==> p.agreementDate.value == inp.agreementDate
  {
    ProductionPayload(inp.productionStatus,
      if inp.productionStatus == "ANLASMADA" && inp.agreementDate != "" then Some(inp.agreementDate) else None)
  }

  const ActionFailed := "İşlem başarısız"
  const StockLoadFailed := "Stok listesi alınamadı"

  /** `toMessage(err) || 'İşlem başarısız'`. */
  function ErrorText(msg: string, fallback: string): (t: string)
    ensures t != ""  || fallback == ""
    ensures msg != "" ==> t == msg
    ensures msg == "" ==> t == fallback
  {
    if msg != "" then msg else fallback
  }

  class JobStepper {
    var job: Job
    var inputs: Inputs
    var selectedStage: string
    var stockItems: seq<Stock.StockItem>
    var stockError: string
    var selectedStock: Option<Stock.StockItem>
    var reserveQty: int
    var reservedLines: seq<Stock.ReservedLine>
    var pendingPO: seq<Stock.PendingLine>
    var actionError: string

    /** Every stock item's `available` is derived from its quantities, and at most one line is held per item. */
    ghost predicate Valid()
      reads this
    {
      Stock.AllConsistent(stockItems) && Stock.UniqueIds(reservedLines)
    }

    /** The stock table, the lines and the pending list are as before. */
    twostate predicate StockUnchanged()
      reads this
    {
      && stockItems == old(stockItems) && stockError == old(stockError)
      && selectedStock == old(selectedStock) && reserveQty == old(reserveQty)
      && reservedLines == old(reservedLines) && pendingPO == old(pendingPO)
    }

    /**
     * Mounting: the cursor on the job's stage, nothing reserved, the job's
     * pending purchase lines, and the initial form after the `[job]` effect.
     */
    constructor(job: Job)
      ensures Valid()
      ensures this.job == job && inputs == Reload(InitialInputs, job) && selectedStage == StageOf(job).id
      ensures stockItems == [] && stockError == "" && selectedStock == None && reserveQty == 1
      ensures reservedLines == [] && pendingPO == job.pendingPO && actionError == ""
    {
      this.job := job;
      inputs := Reload(InitialInputs, job);
      selectedStage := StageOf(job).id;
      stockItems := [];
      stockError := "";
      selectedStock := None;
      reserveQty := 1;
      reservedLines := [];
      pendingPO := job.pendingPO;
      actionError := "";
    }

    /** `markStage`: only the cursor moves; the job and its status are untouched. */
    method MarkStage(id: string)
      modifies this
      ensures selectedStage == id
      ensures job == old(job) && inputs == old(inputs) && actionError == old(actionError) && StockUnchanged()
    {
      selectedStage := id;
    }

    /**
     * The parent hands a new job object in: the `[job]` effect reloads the
     * form, and the cursor effect resets the cursor when the job changed.
     */
    method ReceiveJob(newJob: Job)
      modifies this
      ensures job == newJob && inputs == Reload(old(inputs), newJob)
      ensures selectedStage == (if JobChanged(old(job), newJob) then StageOf(newJob).id else old(selectedStage))
      ensures actionError == old(actionError) && StockUnchanged()
    {
      var changed := JobChanged(job, newJob);
      job := newJob;
      inputs := Reload(inputs, newJob);
      if changed {
        selectedStage := StageOf(newJob).id;
      }
    }

    /**
     * `act`: the remote call's outcome is a parameter. On failure only the
     * error is shown; on success the updated job comes back through the
     * parent, the form is reloaded from it and the cursor follows
     * `CursorAfterAction`.
     */
    method Act(outcome: Result<Job, string>, skipAdvance: bool)
      modifies this
      ensures outcome.Failure? ==>
        && actionError == ErrorText(outcome.error, ActionFailed)
        && job == old(job) && inputs == old(inputs) && selectedStage == old(selectedStage)
      ensures outcome.Success? ==>
        && actionError == "" && job == outcome.value && inputs == Reload(old(inputs), outcome.value)
        && selectedStage == CursorAfterAction(old(job), old(selectedStage), outcome.value, skipAdvance)
      ensures StockUnchanged()
    {
      actionError := "";
      match outcome
      case Failure(msg) =>
        actionError := ErrorText(msg, ActionFailed);
      case Success(updated) =>
        var before := StageOf(job);
        ReceiveJob(updated);
        if !skipAdvance {
          var target := AdvanceTarget(updated);
          if target.id != before.id {
            selectedStage := target.id;
          }
        }
    }

    /** The production panel's "Güncelle": the intermediate statuses ask not to advance. */
    method UpdateProduction(outcome: Result<Job, string>) returns (payload: ProductionPayload)
      modifies this
      ensures payload == ProductionPayloadOf(old(inputs))
      ensures outcome.Success? ==>
        && actionError == "" && job == outcome.value && inputs == Reload(old(inputs), outcome.value)
        && selectedStage == CursorAfterAction(old(job), old(selectedStage), outcome.value, ProductionSkipsAdvance(old(inputs).productionStatus))
      ensures outcome.Failure? ==>
        && actionError == ErrorText(outcome.error, ActionFailed)
        && job == old(job) && inputs == old(inputs) && selectedStage == old(selectedStage)
      ensures StockUnchanged()
    {
      payload := ProductionPayloadOf(inputs);
      Act(outcome, ProductionSkipsAdvance(payload.status));
    }

    /** `loadStock`: the fetched items with `available` recomputed, or the error. */
    method LoadStock(payload: Result<seq<Stock.StockItem>, string>)
      modifies this
      requires Valid()
      ensures Valid()
      ensures payload.Success? ==> stockItems == Stock.NormalizeAll(payload.value) && stockError == ""
      ensures payload.Failure? ==> stockItems == old(stockItems) && stockError == ErrorText(payload.error, StockLoadFailed)
      ensures job == old(job) && inputs == old(inputs) && selectedStage == old(selectedStage)
      ensures reservedLines == old(reservedLines) && pendingPO == old(pendingPO)
      ensures selectedStock == old(selectedStock) && reserveQty == old(reserveQty) && actionError == old(actionError)
    {
      stockError := "";
      match payload
      case Success(items) =>
        stockItems := Stock.NormalizeAll(items);
      case Failure(msg) =>
        stockError := ErrorText(msg, StockLoadFailed);
    }

    /** `selectStock`: the item is selected with a quantity of 1. */
    method SelectStock(item: Stock.StockItem)
      modifies this
      ensures selectedStock == Some(item) && reserveQty == 1
      ensures job == old(job) && inputs == old(inputs) && selectedStage == old(selectedStage) && actionError == old(actionError)
      ensures stockItems == old(stockItems) && stockError == old(stockError)
      ensures reservedLines == old(reservedLines) && pendingPO == old(pendingPO)
    {
      selectedStock := Some(item);
      reserveQty := 1;
    }

    /** The quantity field of the reservation modal. */
    method SetReserveQty(qty: int)
      modifies this
      ensures reserveQty == qty
      ensures job == old(job) && inputs == old(inputs) && selectedStage == old(selectedStage) && actionError == old(actionError)
      ensures stockItems == old(stockItems) && stockError == old(stockError) && selectedStock == old(selectedStock)
      ensures reservedLines == old(reservedLines) && pendingPO == old(pendingPO)
    {
      reserveQty := qty;
    }

    /** `addReservedLine`: returns early without a selection or with a quantity of at most 0. */
    method AddReservedLine()
      modifies this
      requires Valid()
      ensures Valid()
      ensures old(selectedStock).None? || old(reserveQty) <= 0 ==>
        reservedLines == old(reservedLines) && selectedStock == old(selectedStock) && reserveQty == old(reserveQty)
      ensures old(selectedStock).Some? && old(reserveQty) > 0 ==>
        && reservedLines == Stock.AddLine(old(reservedLines), old(selectedStock), old(reserveQty))
        && selectedStock == None && reserveQty == 1
      ensures job == old(job) && inputs == old(inputs) && selectedStage == old(selectedStage) && actionError == old(actionError)
      ensures stockItems == old(stockItems) && stockError == old(stockError) && pendingPO == old(pendingPO)
    {
      if selectedStock.None? || reserveQty <= 0 {
        return;
      }
      Stock.AddLineKeepsUniqueIds(reservedLines, selectedStock, reserveQty);
      reservedLines := Stock.AddLine(reservedLines, selectedStock, reserveQty);
      selectedStock := None;
      reserveQty := 1;
    }

    /** `removeLine`: drops the line held for `id`. */
    method RemoveLine(id: string)
      modifies this
      requires Valid()
      ensures Valid()
      ensures reservedLines == Stock.RemoveLine(old(reservedLines), id)
      ensures job == old(job) && inputs == old(inputs) && selectedStage == old(selectedStage) && actionError == old(actionError)
      ensures stockItems == old(stockItems) && stockError == old(stockError) && pendingPO == old(pendingPO)
      ensures selectedStock == old(selectedStock) && reserveQty == old(reserveQty)
    {
      Stock.RemoveLineKeepsUniqueIds(reservedLines, id);
      reservedLines := Stock.RemoveLine(reservedLines, id);
    }

    /**
     * The local bookkeeping after the stock update was accepted: the
     * pending list becomes the short lines, the stock table takes the
     * reservation and the lines are cleared.
     */
    method CommitReservation()
      modifies this
      requires Valid()
      ensures Valid()
      ensures pendingPO == Stock.PendingOf(old(reservedLines))
      ensures stockItems == Stock.ApplyReservation(old(stockItems), old(reservedLines), old(inputs).stockReady)
      ensures reservedLines == []
      ensures job == old(job) && inputs == old(inputs) && selectedStage == old(selectedStage) && actionError == old(actionError)
      ensures stockError == old(stockError) && selectedStock == old(selectedStock) && reserveQty == old(reserveQty)
    {
      Stock.ReservationKeepsConsistent(stockItems, reservedLines, inputs.stockReady);
      pendingPO := Stock.PendingOf(reservedLines);
      stockItems := Stock.ApplyReservation(stockItems, reservedLines, inputs.stockReady);
      reservedLines := [];
    }

    /**
     * "Rezervasyonu Kaydet" (disabled with no lines). When the stock update
     * succeeds the reservation is committed and `act` finishes as for any
     * action; when it fails nothing but the error changes.
     */
    method SaveReservation(outcome: Result<Job, string>)
      modifies this
      requires Valid()
      ensures Valid()
      ensures old(reservedLines) == [] ==>
        && job == old(job) && inputs == old(inputs) && selectedStage == old(selectedStage)
        && actionError == old(actionError) && StockUnchanged()
      ensures old(reservedLines) != [] && outcome.Failure? ==>
        && actionError == ErrorText(outcome.error, ActionFailed)
        && job == old(job) && inputs == old(inputs) && selectedStage == old(selectedStage) && StockUnchanged()
      ensures old(reservedLines) != [] && outcome.Success? ==>
        && pendingPO == Stock.PendingOf(old(reservedLines))
        && stockItems == Stock.ApplyReservation(old(stockItems), old(reservedLines), old(inputs).stockReady)
        && reservedLines == [] && actionError == ""
        && job == outcome.value && inputs == Reload(old(inputs), outcome.value)
        && selectedStage == CursorAfterAction(old(job), old(selectedStage), outcome.value, false)
      ensures stockError == old(stockError) && selectedStock == old(selectedStock) && reserveQty == old(reserveQty)
    {
      if reservedLines == [] {
        return;
      }
      if outcome.Success? {
        CommitReservation();
      }
      Act(outcome, false);
    }

    /** "+ Çek Ekle": ignored for an amount of 0; otherwise appends the draft and blanks it. */
    method AddCheque()
      modifies this
      ensures old(inputs).chequeDraft.amount == 0 ==> inputs == old(inputs)
      ensures old(inputs).chequeDraft.amount != 0 ==>
        inputs == old(inputs).(chequeLines := old(inputs).chequeLines + [old(inputs).chequeDraft], chequeDraft := BlankCheque)
      ensures Payments.ChequeTotal(inputs.chequeLines) == Payments.ChequeTotal(old(inputs).chequeLines) + old(inputs).chequeDraft.amount
      ensures job == old(job) && selectedStage == old(selectedStage) && actionError == old(actionError) && StockUnchanged()
    {
      var amt := inputs.chequeDraft.amount;
      if amt == 0 {
        return;
      }
      inputs := inputs.(chequeLines := Payments.AddCheque(inputs.chequeLines, inputs.chequeDraft), chequeDraft := BlankCheque);
    }

    /** The ✕ of a cheque row: `chequeLines.filter((_, i) => i !== idx)`. */
    method RemoveCheque(idx: int)
      modifies this
      ensures inputs == old(inputs).(chequeLines := Payments.RemoveChequeAt(old(inputs).chequeLines, idx))
      ensures job == old(job) && selectedStage == old(selectedStage) && actionError == old(actionError) && StockUnchanged()
    {
      inputs := inputs.(chequeLines := Payments.RemoveChequeAt(inputs.chequeLines, idx));
    }
  }

  // ---------------------------------------------------------------------------
  // Properties of the view cursor
  // ---------------------------------------------------------------------------

  /** An empty status and the default status fall in the same stage of either flow. */
  lemma EmptyStatusLikeDefault(startType: string)
    ensures Stages.FindStageForFlow("", Stages.FlowFor(startType)) == Stages.CurrentStage("", startType)
  {
    var flow := Stages.FlowFor(startType);
    assert !Stages.Listed("", flow) by {
      forall i | 0 <= i < |flow|
        ensures "" !in flow[i].statuses
      {
        if "" in flow[i].statuses {
          Stages.TokensNonEmpty(flow, i, "");
        }
      }
    }
  }

  /** The stage `advanceToNextStage` aims at is the stage the effect would pick. */
  lemma AdvanceTargetIsStageOf(updated: Job)
    ensures AdvanceTarget(updated) == StageOf(updated)
  {
    if updated.status == "" {
      EmptyStatusLikeDefault(updated.startType);
    }
  }

  /**
   * `skipAdvance` never changes where the cursor ends: the effect already
   * moves it whenever the job changed, and otherwise no advance happens.
   */
  lemma SkipAdvanceUnobservable(before: Job, cursor: string, updated: Job)
    ensures CursorAfterAction(before, cursor, updated, true) == CursorAfterAction(before, cursor, updated, false)
  {
  }
}
