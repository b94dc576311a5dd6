/**
 * The two stage flows of a job and the classification of a persisted status
 * into a stage (JobsList.jsx, STAGE_FLOW / SERVICE_STAGE_FLOW and the helpers
 * that search them).
 */
module Stages {
  import opened Wrappers

  /** A named phase of a flow owning an ordered list of status tokens. */
  datatype Stage = Stage(id: string, title: string, statuses: seq<string>)

  const StandardFlow: seq<Stage> := [
    Stage("measure", "Ölçü/Keşif", ["OLCU_RANDEVU_BEKLIYOR", "OLCU_RANDEVULU", "OLCU_ALINDI", "MUSTERI_OLCUSU_BEKLENIYOR", "MUSTERI_OLCUSU_YUKLENDI"]),
    Stage("pricing", "Fiyatlandırma", ["FIYATLANDIRMA", "FIYAT_VERILDI"]),
    Stage("agreement", "Anlaşma", ["ANLASMA_YAPILIYOR", "ANLASMA_TAMAMLANDI"]),
    Stage("stock", "Stok/Rezervasyon", ["STOK_BEKLIYOR"]),
    Stage("production", "Üretim", ["URETIME_HAZIR", "URETIMDE", "ANLASMADA"]),
    Stage("assembly", "Montaj", ["MONTAJA_HAZIR", "MONTAJ_TERMIN"]),
    Stage("finance", "Finans Kapanış", ["MUHASEBE_BEKLIYOR", "KAPALI"])
  ]

  const ServiceFlow: seq<Stage> := [
    Stage("service_schedule", "Randevu", ["SERVIS_RANDEVU_BEKLIYOR"]),
    Stage("service_start", "Başlat", ["SERVIS_RANDEVULU"]),
    Stage("service_work", "Servis", ["SERVIS_YAPILIYOR", "SERVIS_DEVAM_EDIYOR"]),
    Stage("service_payment", "Ödeme", ["SERVIS_ODEME_BEKLIYOR"]),
    Stage("service_done", "Tamamlandı", ["SERVIS_KAPALI"])
  ]

  /** The start type that selects the service flow. */
  const ServiceStartType := "SERVIS"

  /** The status assumed for a job whose status is empty. */
  const DefaultStatus := "OLCU_RANDEVU_BEKLIYOR"

  /** The flow a job follows, chosen by its start type. */
  function FlowFor(startType: string): (flow: seq<Stage>)
    ensures |flow| > 0
    ensures flow == ServiceFlow <==> startType == ServiceStartType
    ensures flow == StandardFlow <==> startType != ServiceStartType
  {
    if startType == ServiceStartType then ServiceFlow else StandardFlow
  }

  /** No status token is owned by two stages of `flow`. */
  ghost predicate StatusesDisjoint(flow: seq<Stage>) {
    forall i, j, s :: 0 <= i < j < |flow| && s in flow[i].statuses ==> s !in flow[j].statuses
  }

  /** No two stages of `flow` share an id. */
  ghost predicate IdsDistinct(flow: seq<Stage>) {
    forall i, j :: 0 <= i < j < |flow| ==> flow[i].id != flow[j].id
  }

  /** Some stage of `flow` lists `status`. */
  ghost predicate Listed(status: string, flow: seq<Stage>) {
    exists i :: 0 <= i < |flow| && status in flow[i].statuses
  }

  /**
   * `flow.findIndex(stage => stage.statuses.includes(status))`:
   * the first stage listing `status`, or -1.
   */
  function OwnerIndex(status: string, flow: seq<Stage>): (i: int)
    ensures -1 <= i < |flow|
    ensures i >= 0 ==> status in flow[i].statuses
    ensures forall j :: 0 <= j < |flow| && (i < 0 || j < i) ==> status !in flow[j].statuses
  {
    if |flow| == 0 then -1
    else if status in flow[0].statuses then 0
    else
      var k := OwnerIndex(status, flow[1..]);
      if k < 0 then -1 else k + 1
  }

  /** `flow.findIndex(s => s.id === id)`: the first stage with that id, or -1. */
  function IndexOfId(id: string, flow: seq<Stage>): (i: int)
    ensures -1 <= i < |flow|
    ensures i >= 0 ==> flow[i].id == id
    ensures forall j :: 0 <= j < |flow| && (i < 0 || j < i) ==> flow[j].id != id
  {
    if |flow| == 0 then -1
    else if flow[0].id == id then 0
    else
      var k := IndexOfId(id, flow[1..]);
      if k < 0 then -1 else k + 1
  }

  /**
   * `findStageByStatusForFlow`: the stage owning `status`, falling back to the
   * flow's first stage when no stage lists it. `findStageByStatus` is this
   * function applied to `StandardFlow`.
   */
  function FindStageForFlow(status: string, flow: seq<Stage>): (r: Stage)
    requires |flow| > 0
    ensures r in flow
    ensures Listed(status, flow) ==> status in r.statuses
    ensures !Listed(status, flow) ==> r == flow[0]
  {
    var i := OwnerIndex(status, flow);
    if i >= 0 then flow[i] else flow[0]
  }

  /**
   * The stage a job with this status and start type is in: the stage that
   * lists the status, else the first stage. An empty status reads as
   * DefaultStatus, which lands in the first stage of either flow.
   */
  function CurrentStage(status: string, startType: string): (r: Stage)
    ensures r in FlowFor(startType)
    ensures status != "" && Listed(status, FlowFor(startType)) ==> status in r.statuses
    ensures status != "" && !Listed(status, FlowFor(startType)) ==> r == FlowFor(startType)[0]
    ensures status == "" ==> r == FlowFor(startType)[0]
  {
    DefaultInFirstStage(startType);
    FindStageForFlow(if status == "" then DefaultStatus else status, FlowFor(startType))
  }

  /** DefaultStatus belongs to the first standard stage and to no service stage. */
  lemma DefaultInFirstStage(startType: string)
    ensures FindStageForFlow(DefaultStatus, FlowFor(startType)) == FlowFor(startType)[0]
  {
    if startType == ServiceStartType {
      assert !Listed(DefaultStatus, ServiceFlow);
    } else {
      assert DefaultStatus in StandardFlow[0].statuses;
    }
  }

  /** `getNextStage`: the stage after `id` in the standard flow; None for the last stage or an unknown id. */
  function NextStage(id: string): (r: Option<Stage>)
    ensures r.None? <==> IndexOfId(id, StandardFlow) < 0 || IndexOfId(id, StandardFlow) == |StandardFlow| - 1
    ensures r.Some? ==> r.value == StandardFlow[IndexOfId(id, StandardFlow) + 1]
  {
    var idx := IndexOfId(id, StandardFlow);
    if idx < 0 || idx >= |StandardFlow| - 1 then None else Some(StandardFlow[idx + 1])
  }

  datatype StageState = Done | Current | Pending

  /** `stageState`: how stage `id` compares with the job's current stage in `flow`. */
  function StateOf(id: string, current: Stage, flow: seq<Stage>): (s: StageState)
    ensures id == current.id ==> s == Current
    ensures s == Current && IndexOfId(id, flow) >= 0 ==> id == current.id
    ensures s == Pending ==> IndexOfId(id, flow) >= 0
  {
    var currentIndex := IndexOfId(current.id, flow);
    var index := IndexOfId(id, flow);
    if index < currentIndex then Done
    else if index == currentIndex then Current
    else Pending
  }

  /** The id the stock-reservation panel is shown for. */
  const StockPanelStageId := "approval"

  // ---------------------------------------------------------------------------
  // Properties of the flows and of classification
  // ---------------------------------------------------------------------------

  /**
   * The length and first letter of a status. Statuses of different stages
   * of the standard flow already differ in these, which keeps the proofs
   * about the literal tables small. A proof device of StandardFlowDisjoint
   * and UnlistedByShape, with no counterpart in the screen.
   */
  function Shape(s: string): (int, char) {
    (|s|, if s == [] then ' ' else s[0])
  }

  /** The shapes of a stage's statuses, used by StandardFlowDisjoint. */
  ghost function Shapes(ss: seq<string>): set<(int, char)> {
    set s | s in ss :: Shape(s)
  }

  lemma StandardFlowDisjoint()
    ensures StatusesDisjoint(StandardFlow)
  {
    forall i, j, s | 0 <= i < j < |StandardFlow| && s in StandardFlow[i].statuses
      ensures s !in StandardFlow[j].statuses
    {
      assert Shape(s) in Shapes(StandardFlow[i].statuses);
      assert Shapes(StandardFlow[i].statuses) !! Shapes(StandardFlow[j].statuses);
    }
  }

  lemma ServiceFlowDisjoint()
    ensures StatusesDisjoint(ServiceFlow)
  {
  }

  lemma FlowIdsDistinct()
    ensures IdsDistinct(StandardFlow) && IdsDistinct(ServiceFlow)
  {
  }

  /** In a flow where no status has two owners, a listed status classifies to its owner. */
  lemma {:induction false} ListedStatusClassifies(status: string, flow: seq<Stage>, i: int)
    requires StatusesDisjoint(flow)
    requires 0 <= i < |flow| && status in flow[i].statuses
    ensures FindStageForFlow(status, flow) == flow[i]
    ensures OwnerIndex(status, flow) == i
  {
    var k := OwnerIndex(status, flow);
    assert k >= 0;
  }

  /** Every listed token of either flow is non-empty, so the empty-status default never hides one. */
  lemma TokensNonEmpty(flow: seq<Stage>, i: int, status: string)
    requires flow == StandardFlow || flow == ServiceFlow
    requires 0 <= i < |flow| && status in flow[i].statuses
    ensures status != ""
  {
  }

  /** Every status the standard or service flow lists classifies to exactly the stage that lists it. */
  lemma ClassificationExact(startType: string, i: int, status: string)
    requires 0 <= i < |FlowFor(startType)| && status in FlowFor(startType)[i].statuses
    ensures CurrentStage(status, startType) == FlowFor(startType)[i]
  {
    var flow := FlowFor(startType);
    if startType == ServiceStartType {
      ServiceFlowDisjoint();
    } else {
      StandardFlowDisjoint();
    }
    TokensNonEmpty(flow, i, status);
    ListedStatusClassifies(status, flow, i);
  }

  /** The shapes the standard flow's statuses take; a proof device of UnlistedByShape. */
  const StandardShapes: set<(int, char)> := {
    (6, 'K'), (8, 'U'), (9, 'A'), (11, 'O'), (13, 'F'), (13, 'M'), (13, 'S'), (13, 'U'),
    (14, 'O'), (17, 'A'), (17, 'M'), (18, 'A'), (21, 'O'), (23, 'M'), (25, 'M')
  }

  /** Every standard status has one of the listed shapes; the step UnlistedByShape rests on. */
  lemma StandardShapesCover()
    ensures forall i, t :: 0 <= i < |StandardFlow| && t in StandardFlow[i].statuses ==> Shape(t) in StandardShapes
  {
  }

  /** A status whose shape is not among the standard shapes is listed nowhere in the standard flow. */
  lemma UnlistedByShape(status: string)
    requires Shape(status) !in StandardShapes
    ensures !Listed(status, StandardFlow)
  {
    StandardShapesCover();
  }

  /**
   * A status no stage lists, such as the rejected status or the legacy
   * offer statuses, puts a standard job in the first stage, as does an
   * empty status.
   */
  lemma UnlistedStatusesClassifyAsMeasure(startType: string)
    requires startType != ServiceStartType
    ensures CurrentStage("ANLASILAMADI", startType).id == "measure"
    ensures CurrentStage("TEKLIF_HAZIR", startType).id == "measure"
    ensures CurrentStage("ONAY_BEKLIYOR", startType).id == "measure"
    ensures CurrentStage("", startType).id == "measure"
  {
    UnlistedByShape("ANLASILAMADI");
    UnlistedByShape("TEKLIF_HAZIR");
    UnlistedByShape("ONAY_BEKLIYOR");
    assert "OLCU_RANDEVU_BEKLIYOR" in StandardFlow[0].statuses;
  }

  /**
   * No classification ever yields the id the stock panel is gated on, so a
   * cursor set from a classification never opens that panel.
   */
  lemma StockPanelIdUnreachable(status: string, startType: string)
    ensures CurrentStage(status, startType).id != StockPanelStageId
  {
    var flow := FlowFor(startType);
    var r := CurrentStage(status, startType);
    assert r in flow;
    var k :| 0 <= k < |flow| && flow[k] == r;
  }

  /** `getNextStage` walks the standard flow one step at a time and stops after the last stage. */
  lemma NextStageSteps(i: int)
    requires 0 <= i < |StandardFlow|
    ensures i < |StandardFlow| - 1 ==> NextStage(StandardFlow[i].id) == Some(StandardFlow[i + 1])
    ensures i == |StandardFlow| - 1 ==> NextStage(StandardFlow[i].id) == None
  {
    FlowIdsDistinct();
    IndexOfOwnId(StandardFlow, i);
  }

  /** An id no standard stage has (the service ids among them) has no next stage. */
  lemma NextStageOfUnknownId(id: string)
    requires forall i :: 0 <= i < |StandardFlow| ==> StandardFlow[i].id != id
    ensures NextStage(id) == None
  {
  }

  /** For a stage of the flow, done, current and pending follow its index against the current stage's index. */
  lemma {:induction false} StateOfFollowsIndex(flow: seq<Stage>, i: int, c: int)
    requires IdsDistinct(flow)
    requires 0 <= i < |flow| && 0 <= c < |flow|
    ensures StateOf(flow[i].id, flow[c], flow) == Done <==> i < c
    ensures StateOf(flow[i].id, flow[c], flow) == Current <==> i == c
    ensures StateOf(flow[i].id, flow[c], flow) == Pending <==> i > c
  {
    IndexOfOwnId(flow, i);
    IndexOfOwnId(flow, c);
  }

  lemma {:induction false} IndexOfOwnId(flow: seq<Stage>, i: int)
    requires IdsDistinct(flow)
    requires 0 <= i < |flow|
    ensures IndexOfId(flow[i].id, flow) == i
  {
    var k := IndexOfId(flow[i].id, flow);
    assert k >= 0;
  }

  /** An id outside the flow is always reported done: its index -1 is below every stage's index. */
  lemma UnknownStageReportedDone(id: string, current: Stage, flow: seq<Stage>)
    requires current in flow
    requires forall i :: 0 <= i < |flow| ==> flow[i].id != id
    ensures StateOf(id, current, flow) == Done
  {
    var c :| 0 <= c < |flow| && flow[c] == current;
    assert IndexOfId(current.id, flow) >= 0;
  }
}
