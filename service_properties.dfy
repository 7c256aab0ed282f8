/**
 * What the service's writes do to the sheet, and what the reload that
 * follows them then yields, when `orders` was loaded from that same sheet.
 */
module ServiceProperties {
  import opened Wrappers
  import opened DateFormat
  import opened SheetTable
  import opened SheetsService

  /** `updateOrderStatus(rowIndex, s, d)` changes exactly two cells: the
      status in column H and the delivery date in column K of row
      `rowIndex + 2`. */
  lemma {:induction false} StatusWritesEffect(iso: IsoConverter, t: Table, rowIndex: int, s: string, d: Option<string>)
    requires rowIndex >= -1
    ensures AllValid(StatusWrites(iso, rowIndex, s, d))
    ensures var t' := ApplyUpdates(t, StatusWrites(iso, rowIndex, s, d));
      && CellAt(t', rowIndex + 1, 7) == s
      && CellAt(t', rowIndex + 1, 10) == DeliveryCell(iso, d)
      && (forall i: nat, j: nat :: (i != rowIndex + 1 || (j != 7 && j != 10)) ==> CellAt(t', i, j) == CellAt(t, i, j))
  {
    var us := StatusWrites(iso, rowIndex, s, d);
    ApplyTwo(t, us[0], us[1]);
    WriteCells(t, us[0].at, us[0].value);
    WriteCells(Write(t, us[0].at, us[0].value), us[1].at, us[1].value);
  }

  /** `updatePlannedDate(rowIndex, d)` changes exactly cell `G{rowIndex+2}`,
      which becomes `formatDate(d)`. */
  lemma PlannedDateWriteEffect(iso: IsoConverter, t: Table, rowIndex: int, d: string)
    requires rowIndex >= -1
    ensures var u := PlannedDateWrite(iso, rowIndex, d);
      var t' := Write(t, u.at, u.value);
      && CellAt(t', rowIndex + 1, 6) == FormatDate(iso, d)
      && (forall i: nat, j: nat :: (i != rowIndex + 1 || j != 6) ==> CellAt(t', i, j) == CellAt(t, i, j))
  {
    var u := PlannedDateWrite(iso, rowIndex, d);
    WriteCells(t, u.at, u.value);
  }

  /** Reloading maps rows one to one: replacing one row replaces one order. */
  lemma RowsToOrdersUpdate(iso: IsoConverter, rows: Table, i: nat, row: Row)
    requires i < |rows|
    ensures RowsToOrders(iso, rows[i := row]) == RowsToOrders(iso, rows)[i := RowToOrder(iso, row)]
  {
  }

  /** A write to data row `i` (sheet row `i + 2`) changes that row only. */
  lemma {:induction false} DataRowsAfterWrite(t: Table, i: nat, c: char, v: string)
    requires 'A' <= c <= 'Z' && i < |DataRows(t)|
    ensures DataRows(Write(t, CellRef(c, i + 2), v)) == DataRows(t)[i := SetCell(DataRows(t)[i], ColumnIndex(c), v)]
  {
    var t' := Write(t, CellRef(c, i + 2), v);
    WriteRows(t, CellRef(c, i + 2), v);
    assert |t'| == |t|;
    assert DataRows(t') == t'[1..];
    forall k | 0 <= k < |t| - 1
      ensures t'[1..][k] == DataRows(t)[i := SetCell(DataRows(t)[i], ColumnIndex(c), v)][k]
    {
      assert t'[1..][k] == t'[k + 1];
    }
  }

  /** A write to sheet row 1, the header, leaves every data row as it was. */
  lemma {:induction false} DataRowsAfterHeaderWrite(t: Table, c: char, v: string)
    requires 'A' <= c <= 'Z'
    ensures DataRows(Write(t, CellRef(c, 1), v)) == DataRows(t)
  {
    var t' := Write(t, CellRef(c, 1), v);
    WriteRows(t, CellRef(c, 1), v);
    if t != [] {
      assert |t'| == |t|;
      forall k | 0 <= k < |t| - 1
        ensures t'[1..][k] == t[1..][k]
      {
        assert t'[1..][k] == t'[k + 1];
      }
    }
  }

  /** Column G is the planned date: writing it changes only that field of
      the loaded order, to the formatted value. */
  lemma PlannedDateColumnIsField(iso: IsoConverter, row: Row, v: string)
    ensures RowToOrder(iso, SetCell(row, 6, v)) == RowToOrder(iso, row).(plannedDate := FormatDate(iso, v))
  {
  }

  /** Columns H and K are the status and the delivery date. */
  lemma StatusColumnsAreFields(iso: IsoConverter, row: Row, s: string, v: string)
    ensures RowToOrder(iso, SetCell(SetCell(row, 7, s), 10, v))
         == RowToOrder(iso, row).(status := s, deliveryDate := FormatDate(iso, v))
  {
  }

  /** The loaded orders after a planned-date write to data row `i`. */
  lemma {:induction false} ReloadAfterPlannedDate(iso: IsoConverter, t: Table, i: nat, d: string)
    requires i < |DataRows(t)|
    ensures var before := RowsToOrders(iso, DataRows(t));
      var u := PlannedDateWrite(iso, i, d);
      RowsToOrders(iso, DataRows(ApplyUpdates(t, [u])))
        == before[i := before[i].(plannedDate := FormatDate(iso, FormatDate(iso, d)))]
  {
    var u := PlannedDateWrite(iso, i, d);
    ApplyOne(t, u);
    DataRowsAfterWrite(t, i, PlannedDateColumn, u.value);
    PlannedDateColumnIsField(iso, DataRows(t)[i], u.value);
    RowsToOrdersUpdate(iso, DataRows(t), i, SetCell(DataRows(t)[i], 6, u.value));
  }

  /** The loaded orders after a status batch for data row `i`. */
  lemma {:induction false} ReloadAfterStatusWrites(iso: IsoConverter, t: Table, i: nat, s: string, d: Option<string>)
    requires i < |DataRows(t)|
    ensures AllValid(StatusWrites(iso, i, s, d))
    ensures var before := RowsToOrders(iso, DataRows(t));
      RowsToOrders(iso, DataRows(ApplyUpdates(t, StatusWrites(iso, i, s, d))))
        == before[i := before[i].(status := s, deliveryDate := FormatDate(iso, DeliveryCell(iso, d)))]
  {
    var us := StatusWrites(iso, i, s, d);
    ApplyTwo(t, us[0], us[1]);
    var t1 := Write(t, us[0].at, us[0].value);
    DataRowsAfterWrite(t, i, StatusColumn, s);
    var row1 := SetCell(DataRows(t)[i], 7, s);
    DataRowsAfterWrite(t1, i, DeliveryDateColumn, DeliveryCell(iso, d));
    StatusColumnsAreFields(iso, DataRows(t)[i], s, DeliveryCell(iso, d));
    RowsToOrdersUpdate(iso, DataRows(t), i, SetCell(row1, 10, DeliveryCell(iso, d)));
  }

  /** The loaded orders after the planned-date write and then the status
      batch of a move, both to data row `i`. */
  lemma {:induction false} PropagatedReload(iso: IsoConverter, t: Table, i: nat, order: Order, target: string)
    requires i < |DataRows(t)|
    ensures var before := RowsToOrders(iso, DataRows(t));
      var key := FormatDate(iso, FormatDate(iso, target));
      var t1 := ApplyUpdates(t, [PlannedDateWrite(iso, i, target)]);
      && AllValid(StatusWrites(iso, i, order.status, Some(target)))
      && RowsToOrders(iso, DataRows(ApplyUpdates(t1, StatusWrites(iso, i, order.status, Some(target)))))
         == before[i := before[i].(plannedDate := key, status := order.status, deliveryDate := key)]
  {
    var t1 := ApplyUpdates(t, [PlannedDateWrite(iso, i, target)]);
    ReloadAfterPlannedDate(iso, t, i, target);
    ReloadAfterStatusWrites(iso, t1, i, order.status, Some(target));
  }

  /**
   * A move of the order in data row `i`, every call succeeding: the reload
   * has that order with the new planned date, and, when the delivery date
   * follows, with the moved order's own status and the target as delivery
   * date; every other order is as before.
   */
  lemma {:induction false} MoveReload(iso: IsoConverter, t: Table, i: nat, order: Order, target: string, propagate: bool)
    requires i < |DataRows(t)|
    ensures var before := RowsToOrders(iso, DataRows(t));
      var key := FormatDate(iso, FormatDate(iso, target));
      var plan := MovePlan(iso, i, order, target, propagate);
      && PlanValid(plan)
      && RowsToOrders(iso, DataRows(Run(t, plan, None)))
         == before[i := if propagate then before[i].(plannedDate := key, status := order.status, deliveryDate := key)
                        else before[i].(plannedDate := key)]
  {
    var plan: Plan := MovePlan(iso, i, order, target, propagate);
    assert plan[..0] == [];
    ApplyPlanStep(t, plan, 0);
    if propagate {
      ApplyPlanStep(t, plan, 1);
      assert plan[..2] == plan;
      PropagatedReload(iso, t, i, order, target);
    } else {
      assert plan[..1] == plan;
      ReloadAfterPlannedDate(iso, t, i, target);
    }
  }

  /** Moving an order the loaded list lacks (row index -1) writes sheet row 1,
      the header, and the reload brings back the same orders. */
  lemma {:induction false} MissingOrderMove(iso: IsoConverter, t: Table, order: Order, target: string, propagate: bool)
    ensures var plan := MovePlan(iso, -1, order, target, propagate);
      && PlanValid(plan)
      && CellAt(Run(t, plan, None), 0, 6) == FormatDate(iso, target)
      && RowsToOrders(iso, DataRows(Run(t, plan, None))) == RowsToOrders(iso, DataRows(t))
  {
    var plan: Plan := MovePlan(iso, -1, order, target, propagate);
    assert plan[..0] == [];
    ApplyPlanStep(t, plan, 0);
    var t1 := Write(t, plan[0][0].at, plan[0][0].value);
    ApplyOne(t, plan[0][0]);
    DataRowsAfterHeaderWrite(t, PlannedDateColumn, FormatDate(iso, target));
    WriteCells(t, plan[0][0].at, plan[0][0].value);
    if propagate {
      ApplyPlanStep(t, plan, 1);
      assert plan[..2] == plan;
      var us: seq<CellUpdate> := plan[1];
      ApplyTwo(t1, us[0], us[1]);
      var t2 := Write(t1, us[0].at, us[0].value);
      DataRowsAfterHeaderWrite(t1, StatusColumn, order.status);
      DataRowsAfterHeaderWrite(t2, DeliveryDateColumn, us[1].value);
      StatusWritesEffect(iso, t1, -1, order.status, Some(target));
    } else {
      assert plan[..1] == plan;
    }
  }

  /** Ticking or unticking the box of the order in data row `i`, every call
      succeeding: the reload has that order with the written status and
      delivery date. */
  lemma {:induction false} CheckboxReload(iso: IsoConverter, t: Table, i: nat, checked: bool, issueDate: Option<string>)
    requires i < |DataRows(t)|
    ensures var before := RowsToOrders(iso, DataRows(t));
      var plan := CheckboxPlan(iso, i, checked, issueDate);
      && PlanValid(plan)
      && RowsToOrders(iso, DataRows(Run(t, plan, None)))
         == before[i := before[i].(status := CheckboxStatus(checked),
                                   deliveryDate := FormatDate(iso, DeliveryCell(iso, issueDate)))]
  {
    var plan: Plan := CheckboxPlan(iso, i, checked, issueDate);
    ReloadAfterStatusWrites(iso, t, i, CheckboxStatus(checked), issueDate);
    assert plan[..0] == [] && plan[..1] == plan;
    ApplyPlanStep(t, plan, 0);
  }

  /** A failure stops the operation without undoing earlier writes: when
      the second call fails, the first write stays in the sheet. */
  lemma NoRollback(t: Table, plan: Plan)
    requires PlanValid(plan) && |plan| >= 1
    ensures Run(t, plan, Some(0)) == t
    ensures Run(t, plan, Some(1)) == ApplyUpdates(t, plan[0])
  {
    assert plan[..0] == [];
    ApplyPlanStep(t, plan, 0);
  }

  /** The service's move propagates the delivery date exactly when asked to
      and the status is spelled `выдан`. */
  lemma ServiceMovePropagation(iso: IsoConverter, i: int, order: Order, target: string, updateDeliveryDate: bool)
    ensures var plan := MovePlan(iso, i, order, target, updateDeliveryDate && order.status == Delivered);
      && plan[0] == [PlannedDateWrite(iso, i, target)]
      && (|plan| == 2 <==> updateDeliveryDate && order.status == Delivered)
      && (|plan| == 2 ==> plan[1] == StatusWrites(iso, i, Delivered, Some(target)))
  {
  }

  /** Loaded dates are settled: loading a row, writing the order back and
      loading again gives the same order (for dates without 'T'). */
  lemma {:induction false} LoadIsStable(iso: IsoConverter, row: Row)
    requires 'T' !in Cell(row, 0) && 'T' !in Cell(row, 6) && 'T' !in Cell(row, 10)
    ensures RowToOrder(iso, OrderToRow(RowToOrder(iso, row))) == RowToOrder(iso, row)
  {
    FormatDateIdempotent(iso, Cell(row, 0));
    FormatDateIdempotent(iso, Cell(row, 6));
    FormatDateIdempotent(iso, Cell(row, 10));
  }

  /** An order whose three dates are each in `DD.MM.YYYY` form or match no
      date pattern (and hold no 'T') survives being written as a row and
      loaded back. */
  lemma OrderRowRoundTrip(iso: IsoConverter, o: Order)
    requires 'T' !in o.orderDate && (IsCanonical(o.orderDate) || Unrecognised(o.orderDate))
    requires 'T' !in o.plannedDate && (IsCanonical(o.plannedDate) || Unrecognised(o.plannedDate))
    requires 'T' !in o.deliveryDate && (IsCanonical(o.deliveryDate) || Unrecognised(o.deliveryDate))
    ensures RowToOrder(iso, OrderToRow(o)) == o
  {
    SettledForms(iso, o.orderDate);
    SettledForms(iso, o.plannedDate);
    SettledForms(iso, o.deliveryDate);
  }
}
