/**
 * Stock items as the reservation panel holds them, their health label, the
 * job's reservation lines, and what saving a reservation does to both
 * (JobsList.jsx: loadStock, stockStatus, addReservedLine, removeLine and the
 * reservation-save handler).
 */
module Stock {
  import opened Wrappers

  datatype StockItem = StockItem(
    id: string, sku: string, name: string, unit: string, supplier: string, color: string,
    onHand: int, reserved: int, critical: int,
    available: int)

  /** `Math.max(0, onHand - reserved)`. */
  function Available(onHand: int, reserved: int): (a: nat)
    ensures a >= onHand - reserved
    ensures a == 0 || a == onHand - reserved
  {
    Max(0, onHand - reserved)
  }

  /** The stored `available` agrees with the item's on-hand and reserved quantities. */
  predicate Consistent(item: StockItem) {
    item.available == Available(item.onHand, item.reserved)
  }

  predicate AllConsistent(items: seq<StockItem>) {
    forall i :: 0 <= i < |items| ==> Consistent(items[i])
  }

  /** One item as `loadStock` stores it: every field kept, `available` recomputed. */
  function Normalize(item: StockItem): (r: StockItem)
    ensures Consistent(r)
    ensures r.available >= 0
    ensures r == item.(available := r.available)
  {
    item.(available := Available(item.onHand, item.reserved))
  }

  /** `loadStock`: the fetched list, each item normalized, in the same order. */
  function NormalizeAll(payload: seq<StockItem>): (r: seq<StockItem>)
    ensures |r| == |payload|
    ensures AllConsistent(r)
    ensures forall i :: 0 <= i < |r| ==> r[i] == Normalize(payload[i])
  {
    seq(|payload|, i requires 0 <= i < |payload| => Normalize(payload[i]))
  }

  // ---------------------------------------------------------------------------
  // Health classification
  // ---------------------------------------------------------------------------

  datatype Health = NoItem | SoldOut | Critical | Low | Healthy {
    /** Every band has a non-blank label, only the missing item shows a dash. */
    function Label(): (l: string)
      ensures l != ""
      ensures l == "-" <==> this == NoItem
    {
      match this
      case NoItem => "-"
      case SoldOut => "Tükendi"
      case Critical => "Kritik"
      case Low => "Düşük"
      case Healthy => "Sağlıklı"
    }
    /** Sold-out and critical items share the danger tone; only a healthy item is a success. */
    function Tone(): (t: string)
      ensures t == "danger" <==> this == SoldOut || this == Critical
      ensures t == "success" <==> this == Healthy
      ensures t == "warning" <==> this == Low
    {
      match this
      case NoItem => "secondary"
      case SoldOut => "danger"
      case Critical => "danger"
      case Low => "warning"
      case Healthy => "success"
    }
    /** Position in the order sold out < critical < low < healthy. */
    function Rank(): nat {
      match this
      case NoItem => 0
      case SoldOut => 0
      case Critical => 1
      case Low => 2
      case Healthy => 3
    }
  }

  /** No two bands share a label. */
  lemma LabelIdentifiesHealth(a: Health, b: Health)
    ensures a.Label() == b.Label() ==> a == b
  {
  }

  /** The upper bound of the low band: `critical + Math.max(5, critical * 0.25)`. */
  function LowCeiling(critical: int): real {
    critical as real + (if 5.0 >= critical as real * 0.25 then 5.0 else critical as real * 0.25)
  }

  /** `stockStatus`: the band `available` falls in. */
  function StockStatus(item: Option<StockItem>): (h: Health)
    ensures h == NoItem <==> item.None?
    ensures item.Some? ==> (h == SoldOut <==> item.value.available <= 0)
    ensures item.Some? ==> (h == Critical <==> 0 < item.value.available <= item.value.critical)
    ensures item.Some? ==> (h == Low <==>
      0 < item.value.available && item.value.available > item.value.critical &&
      item.value.available as real <= LowCeiling(item.value.critical))
    ensures item.Some? ==> (h == Healthy <==>
      0 < item.value.available && item.value.available > item.value.critical &&
      item.value.available as real > LowCeiling(item.value.critical))
  {
    match item
    case None => NoItem
    case Some(it) =>
      if it.available <= 0 then SoldOut
      else if it.available <= it.critical then Critical
      else if it.available as real <= LowCeiling(it.critical) then Low
      else Healthy
  }

  /** More available stock never gives a worse health label. */
  lemma StockStatusMonotone(item: StockItem, more: int)
    requires more >= item.available
    ensures StockStatus(Some(item)).Rank() <= StockStatus(Some(item.(available := more))).Rank()
  {
  }

  // ---------------------------------------------------------------------------
  // Reservation lines
  // ---------------------------------------------------------------------------

  /** A line of the reservation being assembled; `available` is the item's availability when the line was first added. */
  datatype ReservedLine = ReservedLine(
    id: string, name: string, sku: string, qty: int, unit: string,
    available: int, supplier: string, color: string)

  /** A line that exceeds availability, with its shortfall (`{ ...line, missing }`). */
  datatype PendingLine = PendingLine(line: ReservedLine, missing: int)

  ghost predicate UniqueIds(lines: seq<ReservedLine>) {
    forall i, j :: 0 <= i < j < |lines| ==> lines[i].id != lines[j].id
  }

  predicate HasLine(lines: seq<ReservedLine>, id: string) {
    exists i :: 0 <= i < |lines| && lines[i].id == id
  }

  /** The quantity held for `id`, or 0 when no line has it. */
  function QtyOf(lines: seq<ReservedLine>, id: string): (q: int)
    ensures !HasLine(lines, id) ==> q == 0
  {
    if lines == [] then 0 else if lines[0].id == id then lines[0].qty else QtyOf(lines[1..], id)
  }

  function NewLine(item: StockItem, qty: int): (l: ReservedLine)
    ensures l.id == item.id && l.qty == qty && l.available == item.available
  {
    ReservedLine(item.id, item.name, item.sku, qty, item.unit, item.available, item.supplier, item.color)
  }

  /** `prev.map(line => line.id === id ? { ...line, qty: line.qty + qty } : line)`. */
  function BumpQty(lines: seq<ReservedLine>, id: string, qty: int): (r: seq<ReservedLine>)
    ensures |r| == |lines|
    ensures forall i :: 0 <= i < |lines| ==>
      r[i] == if lines[i].id == id then lines[i].(qty := lines[i].qty + qty) else lines[i]
  {
    seq(|lines|, i requires 0 <= i < |lines| =>
      if lines[i].id == id then lines[i].(qty := lines[i].qty + qty) else lines[i])
  }

  /**
   * `addReservedLine`: nothing without a selected item or with a quantity
   * of at most 0; otherwise the quantity is added to the line already held
   * for that item, or a new line is appended.
   */
  function AddLine(lines: seq<ReservedLine>, selected: Option<StockItem>, qty: int): (r: seq<ReservedLine>)
    ensures selected.None? || qty <= 0 ==> r == lines
    ensures selected.Some? && qty > 0 && HasLine(lines, selected.value.id) ==>
      r == BumpQty(lines, selected.value.id, qty)
    ensures selected.Some? && qty > 0 && !HasLine(lines, selected.value.id) ==>
      r == lines + [NewLine(selected.value, qty)]
  {
    if selected.None? || qty <= 0 then lines
    else if HasLine(lines, selected.value.id) then BumpQty(lines, selected.value.id, qty)
    else lines + [NewLine(selected.value, qty)]
  }

  /** `removeLine`: `prev.filter(line => line.id !== id)`. */
  function RemoveLine(lines: seq<ReservedLine>, id: string): (r: seq<ReservedLine>)
    ensures forall l :: l in r <==> l in lines && l.id != id
    ensures |r| <= |lines|
  {
    if lines == [] then []
    else if lines[0].id == id then RemoveLine(lines[1..], id)
    else [lines[0]] + RemoveLine(lines[1..], id)
  }

  /**
   * `filter` works line by line: removing from a concatenation removes from
   * each part, and a single line is kept exactly when its id differs. So the
   * kept lines appear once each, in the order they had.
   */
  lemma {:induction false} RemoveLineConcat(a: seq<ReservedLine>, b: seq<ReservedLine>, id: string)
    ensures RemoveLine(a + b, id) == RemoveLine(a, id) + RemoveLine(b, id)
  {
    if a == [] {
      assert a + b == b;
    } else {
      assert (a + b)[1..] == a[1..] + b;
      RemoveLineConcat(a[1..], b, id);
    }
  }

  /** A single line is kept as it is, or dropped. */
  lemma RemoveLineSingle(l: ReservedLine, id: string)
    ensures RemoveLine([l], id) == (if l.id != id then [l] else [])
  {
  }


  /** Adding keeps at most one line per item. */
  lemma AddLineKeepsUniqueIds(lines: seq<ReservedLine>, selected: Option<StockItem>, qty: int)
    requires UniqueIds(lines)
    ensures UniqueIds(AddLine(lines, selected, qty))
  {
  }

  /** Removing keeps at most one line per item. */
  lemma {:induction false} RemoveLineKeepsUniqueIds(lines: seq<ReservedLine>, id: string)
    requires UniqueIds(lines)
    ensures UniqueIds(RemoveLine(lines, id))
  {
    if lines != [] {
      var rest := lines[1..];
      assert UniqueIds(rest);
      RemoveLineKeepsUniqueIds(rest, id);
      if lines[0].id != id {
        var r := RemoveLine(rest, id);
        assert forall l :: l in r ==> l in rest;
        assert forall l :: l in rest ==> l.id != lines[0].id;
        assert RemoveLine(lines, id) == [lines[0]] + r;
      }
    }
  }

  /** Adding to an item raises exactly that item's quantity by `qty` and leaves the others alone. */
  lemma {:induction false} AddLineQty(lines: seq<ReservedLine>, item: StockItem, qty: int, other: string)
    requires UniqueIds(lines) && qty > 0
    ensures QtyOf(AddLine(lines, Some(item), qty), item.id) == QtyOf(lines, item.id) + qty
    ensures other != item.id ==> QtyOf(AddLine(lines, Some(item), qty), other) == QtyOf(lines, other)
  {
    if HasLine(lines, item.id) {
      BumpQtyOf(lines, item.id, qty, item.id);
      BumpQtyOf(lines, item.id, qty, other);
    } else {
      QtyOfAppend(lines, NewLine(item, qty), item.id);
      QtyOfAppend(lines, NewLine(item, qty), other);
    }
  }

  lemma {:induction false} BumpQtyOf(lines: seq<ReservedLine>, id: string, qty: int, probe: string)
    ensures QtyOf(BumpQty(lines, id, qty), probe) == QtyOf(lines, probe) + (if probe == id && HasLine(lines, id) then qty else 0)
  {
    if lines != [] {
      assert BumpQty(lines, id, qty)[1..] == BumpQty(lines[1..], id, qty);
      BumpQtyOf(lines[1..], id, qty, probe);
      if lines[0].id != id && HasLine(lines, id) {
        var i :| 0 <= i < |lines| && lines[i].id == id;
        assert lines[1..][i - 1].id == id;
      }
    }
  }

  lemma {:induction false} QtyOfAppend(lines: seq<ReservedLine>, l: ReservedLine, probe: string)
    requires !HasLine(lines, l.id)
    ensures QtyOf(lines + [l], probe) == if probe == l.id then l.qty else QtyOf(lines, probe)
  {
    if lines == [] {
    } else {
      assert (lines + [l])[1..] == lines[1..] + [l];
      assert !HasLine(lines[1..], l.id);
      QtyOfAppend(lines[1..], l, probe);
      if probe == l.id {
        assert lines[0].id != l.id;
      }
    }
  }

  /** Removing a freshly added item's line gives back the lines held before. */
  lemma {:induction false} RemoveUndoesAdd(lines: seq<ReservedLine>, item: StockItem, qty: int)
    requires !HasLine(lines, item.id) && qty > 0
    ensures RemoveLine(AddLine(lines, Some(item), qty), item.id) == lines
  {
    RemoveAppended(lines, NewLine(item, qty));
  }

  lemma {:induction false} RemoveAppended(lines: seq<ReservedLine>, l: ReservedLine)
    requires !HasLine(lines, l.id)
    ensures RemoveLine(lines + [l], l.id) == lines
  {
    if lines == [] {
      assert RemoveLine([l], l.id) == RemoveLine([], l.id);
    } else {
      assert (lines + [l])[1..] == lines[1..] + [l];
      assert lines[0].id != l.id;
      assert !HasLine(lines[1..], l.id);
      RemoveAppended(lines[1..], l);
    }
  }

  // ---------------------------------------------------------------------------
  // Saving a reservation
  // ---------------------------------------------------------------------------

  /**
   * The `pending` part of the reservation payload: the lines asking for more
   * than was available, each with its shortfall.
   */
  function PendingOf(lines: seq<ReservedLine>): (r: seq<PendingLine>)
    ensures forall p :: p in r ==>
      (p.line in lines && p.line.qty > p.line.available && p.missing == p.line.qty - p.line.available && p.missing > 0)
    ensures forall l :: l in lines && l.qty > l.available ==> PendingLine(l, l.qty - l.available) in r
    ensures |r| <= |lines|
  {
    if lines == [] then []
    else
      var rest := PendingOf(lines[1..]);
      if lines[0].qty > lines[0].available then [PendingLine(lines[0], lines[0].qty - lines[0].available)] + rest
      else rest
  }

  /**
   * `filter` then `map` works line by line: the pending list of a
   * concatenation is the concatenation of the pending lists, and a single
   * line contributes its shortfall exactly when it asks for more than is
   * available. So each short line appears once, in the order of the lines.
   */
  lemma {:induction false} PendingOfConcat(a: seq<ReservedLine>, b: seq<ReservedLine>)
    ensures PendingOf(a + b) == PendingOf(a) + PendingOf(b)
  {
    if a == [] {
      assert a + b == b;
    } else {
      calc {
        PendingOf(a + b);
      == { PendingOfCons(a + b); assert (a + b)[0] == a[0] && (a + b)[1..] == a[1..] + b; }
        PendingOf([a[0]]) + PendingOf(a[1..] + b);
      == { PendingOfConcat(a[1..], b); }
        PendingOf([a[0]]) + (PendingOf(a[1..]) + PendingOf(b));
      == { ConcatAssoc(PendingOf([a[0]]), PendingOf(a[1..]), PendingOf(b)); }
        (PendingOf([a[0]]) + PendingOf(a[1..])) + PendingOf(b);
      == { PendingOfCons(a); }
        PendingOf(a) + PendingOf(b);
      }
    }
  }

  /** Concatenation of sequences is associative. */
  lemma ConcatAssoc<T>(x: seq<T>, y: seq<T>, z: seq<T>)
    ensures x + (y + z) == (x + y) + z
  {
  }

  /** The pending list of a non-empty list starts with what its first line contributes. */
  lemma {:induction false} PendingOfCons(lines: seq<ReservedLine>)
    requires lines != []
    ensures PendingOf(lines) == PendingOf([lines[0]]) + PendingOf(lines[1..])
  {
    assert [lines[0]][1..] == [];
  }

  /** A single line contributes its shortfall when it asks for more than is available, else nothing. */
  lemma PendingOfSingle(l: ReservedLine)
    ensures PendingOf([l]) == (if l.qty > l.available then [PendingLine(l, l.qty - l.available)] else [])
  {
  }


  /** `reservedLines.find(l => l.id === id)`. */
  function FirstLineFor(lines: seq<ReservedLine>, id: string): (r: Option<ReservedLine>)
    ensures r.None? <==> !HasLine(lines, id)
    ensures r.Some? ==> r.value in lines && r.value.id == id && r.value.qty == QtyOf(lines, id)
  {
    if lines == [] then None
    else if lines[0].id == id then Some(lines[0])
    else
      FirstLineFor(lines[1..], id)
  }

  /**
   * The effect of a saved reservation on one stock item: with `ready` the
   * quantity leaves `onHand` (never below 0); otherwise the whole quantity is
   * added to `reserved`, even the part that was not available.
   */
  function ReserveItem(item: StockItem, lines: seq<ReservedLine>, ready: bool): (r: StockItem)
    ensures !HasLine(lines, item.id) ==> r == item
    ensures HasLine(lines, item.id) ==> Consistent(r) && r.id == item.id && r.critical == item.critical
    ensures r == item.(onHand := r.onHand, reserved := r.reserved, available := r.available)
    ensures HasLine(lines, item.id) && ready ==>
      r.onHand == Max(0, item.onHand - QtyOf(lines, item.id)) && r.reserved == item.reserved
    ensures HasLine(lines, item.id) && !ready ==>
      r.onHand == item.onHand && r.reserved == item.reserved + QtyOf(lines, item.id)
  {
    match FirstLineFor(lines, item.id)
    case None => item
    case Some(line) =>
      var next := if ready then item.(onHand := Max(0, item.onHand - line.qty))
                  else item.(reserved := item.reserved + line.qty);
      next.(available := Available(next.onHand, next.reserved))
  }

  /** The stock table after a saved reservation: `prev.map(item => ReserveItem(item))`. */
  function ApplyReservation(items: seq<StockItem>, lines: seq<ReservedLine>, ready: bool): (r: seq<StockItem>)
    ensures |r| == |items|
    ensures forall i :: 0 <= i < |r| ==> r[i] == ReserveItem(items[i], lines, ready)
  {
    seq(|items|, i requires 0 <= i < |items| => ReserveItem(items[i], lines, ready))
  }

  /** After a saved reservation every item's `available` is again `max(0, onHand - reserved)` and never negative. */
  lemma ReservationKeepsConsistent(items: seq<StockItem>, lines: seq<ReservedLine>, ready: bool)
    requires AllConsistent(items)
    ensures AllConsistent(ApplyReservation(items, lines, ready))
    ensures forall i :: 0 <= i < |items| ==> ApplyReservation(items, lines, ready)[i].available >= 0
  {
  }

  /**
   * Five on hand, two reserved (three available), five requested without
   * `ready`: the line is pending with two missing, and the whole five are
   * added to `reserved`, leaving nothing available.
   */
  lemma ShortReservationExample()
    ensures var item := Normalize(StockItem("p1", "SKU-1", "Profil", "adet", "", "", 5, 2, 1, 0));
            var line := NewLine(item, 5);
            && item.available == 3
            && PendingOf([line]) == [PendingLine(line, 2)]
            && ReserveItem(item, [line], false).reserved == 7
            && ReserveItem(item, [line], false).available == 0
  {
    var item := Normalize(StockItem("p1", "SKU-1", "Profil", "adet", "", "", 5, 2, 1, 0));
    var line := NewLine(item, 5);
    assert [line][0].id == item.id;
    assert HasLine([line], item.id);
  }
}
