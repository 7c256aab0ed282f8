/**
 * The order-sheet service (src/services/googleSheetsService.js): the mapping
 * from sheet rows to orders, and the service object whose operations are
 * ordered writes to the sheet followed by a wholesale reload of `orders`.
 *
 * Every remote call may fail. A compound operation takes `failAt`, the
 * ordinal (from 0, in call order) of the remote call that fails, or None
 * when all of them succeed; a failure stops the operation, and what was
 * written before it stays written.
 */
module SheetsService {
  import opened Wrappers
  import opened DateFormat
  import opened SheetTable

  /** One production order: one sheet row, columns A to N. */
  datatype Order = Order(
    orderDate: string,
    orderNumber: string,
    prisadkaNumber: string,
    client: string,
    area: string,
    millingType: string,
    plannedDate: string,
    status: string,
    payment: string,
    remainingPayment: string,
    deliveryDate: string,
    phone: string,
    cadFiles: string,
    material: string)

  /** Columns written by the service (src/config/googleSheets.js). */
  const PlannedDateColumn := 'G'
  const StatusColumn := 'H'
  const DeliveryDateColumn := 'K'

  /** Status spellings: the sheet's own lower-case values, and the
      capitalised ones the checkbox writes. */
  const Ready := "готов"
  const Delivered := "выдан"
  const CheckedStatus := "Выдан"
  const UncheckedStatus := "Готов"

  /** The generic messages the compound operations rethrow. */
  const MoveFailedMessage := "Ошибка при перемещении заказа"
  const StatusFailedMessage := "Ошибка при обновлении статуса заказа"

  /** What went wrong underneath (the error that is logged). */
  datatype Cause = NotLoaded | NotFound(orderNumber: string) | RemoteFailure

  /** A thrown error: its message and the logged cause. */
  datatype ServiceError = ServiceError(message: string, cause: Cause)

  /** The `row => ({...})` mapping of `loadOrders`. */
  function RowToOrder(iso: IsoConverter, row: Row): Order {
    Order(
      orderDate := FormatDate(iso, Cell(row, 0)),
      orderNumber := Cell(row, 1),
      prisadkaNumber := Cell(row, 2),
      client := Cell(row, 3),
      area := Cell(row, 4),
      millingType := Cell(row, 5),
      plannedDate := FormatDate(iso, Cell(row, 6)),
      status := Cell(row, 7),
      payment := Cell(row, 8),
      remainingPayment := Cell(row, 9),
      deliveryDate := FormatDate(iso, Cell(row, 10)),
      phone := Cell(row, 11),
      cadFiles := Cell(row, 12),
      material := Cell(row, 13))
  }

  /** Each field of a loaded order comes from its own column, A to N; only
      the three date columns (A, G and K) are formatted. */
  lemma RowToOrderColumns(iso: IsoConverter, row: Row)
    ensures var back := OrderToRow(RowToOrder(iso, row));
      forall j :: 0 <= j < 14 ==>
        back[j] == if j == 0 || j == 6 || j == 10 then FormatDate(iso, Cell(row, j)) else Cell(row, j)
  {
    var cells := seq(14, j requires 0 <= j < 14 => Cell(row, j));
    assert OrderToRow(RowToOrder(iso, row))
        == cells[0 := FormatDate(iso, cells[0])][6 := FormatDate(iso, cells[6])][10 := FormatDate(iso, cells[10])];
  }

  /** `response.result.values.map(...)` */
  function RowsToOrders(iso: IsoConverter, rows: Table): (r: seq<Order>)
    ensures |r| == |rows|
  {
    seq(|rows|, i requires 0 <= i < |rows| => RowToOrder(iso, rows[i]))
  }

  /** One order per row, in sheet order: order `k` carries row `k`'s number
      and status as written. */
  lemma RowsToOrdersRows(iso: IsoConverter, rows: Table)
    ensures var orders := RowsToOrders(iso, rows);
      forall k :: 0 <= k < |rows| ==> orders[k].orderNumber == Cell(rows[k], 1) && orders[k].status == Cell(rows[k], 7)
  {
  }

  /** The inverse direction: the 14 cells an order occupies, A to N. */
  function OrderToRow(o: Order): Row {
    [o.orderDate, o.orderNumber, o.prisadkaNumber, o.client, o.area, o.millingType,
     o.plannedDate, o.status, o.payment, o.remainingPayment, o.deliveryDate,
     o.phone, o.cadFiles, o.material]
  }

  /** `orders.findIndex(o => o.orderNumber === number)` */
  function FindIndex(orders: seq<Order>, number: string): (r: int)
    ensures -1 <= r < |orders|
    decreases |orders|
  {
    if orders == [] then -1
    else if orders[0].orderNumber == number then 0
    else
      var k := FindIndex(orders[1..], number);
      if k == -1 then -1 else k + 1
  }

  /** -1 exactly when no order has the number; otherwise the first index
      whose order has it. */
  lemma {:induction false} FindIndexSpec(orders: seq<Order>, number: string)
    ensures var r := FindIndex(orders, number);
      && (r == -1 <==> forall k :: 0 <= k < |orders| ==> orders[k].orderNumber != number)
      && (r >= 0 ==> orders[r].orderNumber == number)
      && (r >= 0 ==> forall k :: 0 <= k < r ==> orders[k].orderNumber != number)
    decreases |orders|
  {
    if orders != [] && orders[0].orderNumber != number {
      FindIndexSpec(orders[1..], number);
      var r := FindIndex(orders, number);
      if r >= 0 {
        forall k | 0 <= k < r
          ensures orders[k].orderNumber != number
        {
          if k > 0 {
            assert orders[k] == orders[1..][k - 1];
          }
        }
      } else {
        forall k | 0 <= k < |orders|
          ensures orders[k].orderNumber != number
        {
          if k > 0 {
            assert orders[k] == orders[1..][k - 1];
          }
        }
      }
    }
  }

  /** The cell `updatePlannedDate(rowIndex, d)` writes. */
  function PlannedDateWrite(iso: IsoConverter, rowIndex: int, d: string): CellUpdate {
    CellUpdate(CellRef(PlannedDateColumn, rowIndex + 2), FormatDate(iso, d))
  }

  /** The delivery-date cell value: `''` for a null or empty date. */
  function DeliveryCell(iso: IsoConverter, d: Option<string>): string {
    match d
    case None => ""
    case Some(s) => if s == "" then "" else FormatDate(iso, s)
  }

  /** The batch `updateOrderStatus(rowIndex, status, d)` sends. */
  function StatusWrites(iso: IsoConverter, rowIndex: int, status: string, d: Option<string>): seq<CellUpdate> {
    [CellUpdate(CellRef(StatusColumn, rowIndex + 2), status),
     CellUpdate(CellRef(DeliveryDateColumn, rowIndex + 2), DeliveryCell(iso, d))]
  }

  /** The write calls of one operation, in order; one batch per call. */
  type Plan = seq<seq<CellUpdate>>

  predicate PlanValid(plan: Plan) {
    forall k :: 0 <= k < |plan| ==> AllValid(plan[k])
  }

  /** The writes of a move: always the planned date, then, when the delivery
      date is to follow, the order's own status with the target date. */
  function MovePlan(iso: IsoConverter, rowIndex: int, order: Order, target: string, propagate: bool): Plan {
    [[PlannedDateWrite(iso, rowIndex, target)]] +
    (if propagate then [StatusWrites(iso, rowIndex, order.status, Some(target))] else [])
  }

  /** The status the checkbox writes. */
  function CheckboxStatus(checked: bool): string {
    if checked then CheckedStatus else UncheckedStatus
  }

  function CheckboxPlan(iso: IsoConverter, rowIndex: int, checked: bool, issueDate: Option<string>): Plan {
    [StatusWrites(iso, rowIndex, CheckboxStatus(checked), issueDate)]
  }

  /** The batches applied in order. */
  function ApplyPlan(t: Table, plan: Plan): Table
    requires PlanValid(plan)
    decreases |plan|
  {
    if plan == [] then t else ApplyPlan(ApplyUpdates(t, plan[0]), plan[1..])
  }

  /** How many write calls are made before the failing one. */
  function Attempted(plan: Plan, failAt: Option<nat>): nat {
    match failAt
    case None => |plan|
    case Some(k) => if k < |plan| then k else |plan|
  }

  /** The sheet after an operation's writes, up to a failure. */
  function Run(t: Table, plan: Plan, failAt: Option<nat>): Table
    requires PlanValid(plan)
  {
    ApplyPlan(t, plan[..Attempted(plan, failAt)])
  }

  /** Every call succeeds, the reload after the writes included. */
  predicate Completes(plan: Plan, failAt: Option<nat>) {
    failAt.None? || failAt.value > |plan|
  }

  /** Whether the remote call with ordinal `k` goes through. */
  function Up(failAt: Option<nat>, k: nat): bool {
    failAt != Some(k)
  }

  /** Applying one more batch of a plan extends the applied prefix by one. */
  lemma {:induction false} ApplyPlanStep(t: Table, plan: Plan, k: nat)
    requires PlanValid(plan) && k < |plan|
    ensures ApplyPlan(t, plan[..k + 1]) == ApplyUpdates(ApplyPlan(t, plan[..k]), plan[k])
    decreases k
  {
    if k == 0 {
      assert plan[..1][1..] == [];
    } else {
      assert plan[..k + 1][1..] == plan[1..][..k];
      assert plan[..k][1..] == plan[1..][..k - 1];
      ApplyPlanStep(ApplyUpdates(t, plan[0]), plan[1..], k - 1);
    }
  }

  lemma ApplyOne(t: Table, u: CellUpdate)
    requires ValidRef(u.at)
    ensures ApplyUpdates(t, [u]) == Write(t, u.at, u.value)
  {
    assert [u][1..] == [];
  }

  class GoogleSheetsService {
    var orders: seq<Order>
    const sheet: Spreadsheet
    const iso: IsoConverter

    constructor (sheet: Spreadsheet, iso: IsoConverter)
      ensures orders == [] && this.sheet == sheet && this.iso == iso
    {
      this.orders := [];
      this.sheet := sheet;
      this.iso := iso;
    }

    /** Reads `A2:N`, maps every row to an order and replaces `orders` with
        the result; a failed read is rethrown and leaves `orders` alone. */
    method LoadOrders(up: bool) returns (r: Result<seq<Order>, Cause>)
      modifies this`orders
      ensures up ==> orders == RowsToOrders(iso, DataRows(sheet.rows)) && r == Ok(orders)
      ensures !up ==> orders == old(orders) && r == Err(RemoteFailure)
    {
      var values := sheet.GetValues(up);
      match values
      case None =>
        r := Err(RemoteFailure);
      case Some(rows) =>
        var loaded := RowsToOrders(iso, rows);
        orders := loaded;
        r := Ok(loaded);
    }

    /** Writes the status to `H{rowIndex+2}` and the delivery date to
        `K{rowIndex+2}` in one batch. */
    method UpdateOrderStatus(rowIndex: int, newStatus: string, deliveryDate: Option<string>, up: bool)
      returns (r: Result<(), Cause>)
      modifies sheet
      ensures r.Ok? == (up && rowIndex >= -1)
      ensures r.Err? ==> r.error == RemoteFailure
      ensures sheet.rows == if r.Ok? then ApplyUpdates(old(sheet.rows), StatusWrites(iso, rowIndex, newStatus, deliveryDate))
                            else old(sheet.rows)
    {
      var updates: seq<CellUpdate> := [];
      updates := updates + [CellUpdate(CellRef(StatusColumn, rowIndex + 2), newStatus)];
      updates := updates + [CellUpdate(CellRef(DeliveryDateColumn, rowIndex + 2), DeliveryCell(iso, deliveryDate))];
      var ok := sheet.BatchUpdate(updates, up);
      r := if ok then Ok(()) else Err(RemoteFailure);
    }

    /** Writes the formatted date to `G{rowIndex+2}`. */
    method UpdatePlannedDate(rowIndex: int, newDate: string, up: bool) returns (r: Result<(), Cause>)
      modifies sheet
      ensures r.Ok? == (up && rowIndex >= -1)
      ensures r.Err? ==> r.error == RemoteFailure
      ensures sheet.rows == if r.Ok? then Write(old(sheet.rows), PlannedDateWrite(iso, rowIndex, newDate).at,
                                                FormatDate(iso, newDate))
                            else old(sheet.rows)
    {
      var formattedDate := FormatDate(iso, newDate);
      var ok := sheet.Update(CellRef(PlannedDateColumn, rowIndex + 2), formattedDate, up);
      r := if ok then Ok(()) else Err(RemoteFailure);
    }

    /** The write calls of a move, `updatePlannedDate` and then, when the
        delivery date follows, `updateOrderStatus`, stopping at the first
        failed call; `done` tells whether every write went through. Both
        this service's move and the board's own move issue this sequence. */
    method WriteMove(rowIndex: int, order: Order, targetDate: string, propagate: bool, failAt: Option<nat>)
      returns (done: bool)
      requires rowIndex >= -1
      modifies sheet
      ensures var plan := MovePlan(iso, rowIndex, order, targetDate, propagate);
        && PlanValid(plan)
        && sheet.rows == Run(old(sheet.rows), plan, failAt)
        && done == (Attempted(plan, failAt) == |plan| && Up(failAt, 0) && Up(failAt, |plan| - 1))
    {
      ghost var plan := MovePlan(iso, rowIndex, order, targetDate, propagate);
      ghost var t0 := sheet.rows;
      var written := UpdatePlannedDate(rowIndex, targetDate, Up(failAt, 0));
      if written.Err? {
        assert Attempted(plan, failAt) == 0 && plan[..0] == [];
        return false;
      }
      ApplyOne(t0, plan[0][0]);
      ApplyPlanStep(t0, plan, 0);
      assert plan[..0] == [];
      if propagate {
        written := UpdateOrderStatus(rowIndex, order.status, Some(targetDate), Up(failAt, 1));
        if written.Err? {
          assert Attempted(plan, failAt) == 1;
          return false;
        }
        ApplyPlanStep(t0, plan, 1);
      }
      assert plan[..|plan|] == plan;
      return true;
    }

    /**
     * Moves an order to `targetDate`: writes the planned date, then the
     * delivery date only when asked to and the status is exactly `выдан`,
     * then reloads. The row is looked up in `orders` and never checked, so
     * an order that is not there writes sheet row 1.
     */
    method HandleOrderMove(order: Order, sourceDate: string, targetDate: string, updateDeliveryDate: bool,
                           failAt: Option<nat>)
      returns (r: Result<seq<Order>, ServiceError>)
      modifies this`orders, sheet
      ensures var plan := MovePlan(iso, FindIndex(old(orders), order.orderNumber), order, targetDate,
                                   updateDeliveryDate && order.status == Delivered);
        && PlanValid(plan)
        && sheet.rows == Run(old(sheet.rows), plan, failAt)
        && if Completes(plan, failAt) then
             orders == RowsToOrders(iso, DataRows(sheet.rows)) && r == Ok(orders)
           else
             orders == old(orders) && r == Err(ServiceError(MoveFailedMessage, RemoteFailure))
    {
      var rowIndex := FindIndex(orders, order.orderNumber);
      var propagate := updateDeliveryDate && order.status == Delivered;
      var done := WriteMove(rowIndex, order, targetDate, propagate, failAt);
      if !done {
        return Err(ServiceError(MoveFailedMessage, RemoteFailure));
      }
      var loaded := LoadOrders(Up(failAt, if propagate then 2 else 1));
      if loaded.Err? {
        return Err(ServiceError(MoveFailedMessage, RemoteFailure));
      }
      return Ok(loaded.value);
    }

    /**
     * Ticks or unticks an order's completion box: refuses before any write
     * when nothing is loaded or the order is not among `orders`; otherwise
     * writes `Выдан` or `Готов` with `issueDate` as delivery date, then
     * reloads.
     */
    method HandleCheckboxChange(order: Order, isChecked: bool, issueDate: Option<string>, failAt: Option<nat>)
      returns (r: Result<seq<Order>, ServiceError>)
      modifies this`orders, sheet
      ensures old(orders) == [] ==>
        r == Err(ServiceError(StatusFailedMessage, NotLoaded)) && orders == old(orders) && sheet.rows == old(sheet.rows)
      ensures old(orders) != [] && FindIndex(old(orders), order.orderNumber) == -1 ==>
        && r == Err(ServiceError(StatusFailedMessage, NotFound(order.orderNumber)))
        && orders == old(orders) && sheet.rows == old(sheet.rows)
      ensures FindIndex(old(orders), order.orderNumber) >= 0 ==>
        var plan := CheckboxPlan(iso, FindIndex(old(orders), order.orderNumber), isChecked, issueDate);
        && PlanValid(plan)
        && sheet.rows == Run(old(sheet.rows), plan, failAt)
        && if Completes(plan, failAt) then
             orders == RowsToOrders(iso, DataRows(sheet.rows)) && r == Ok(orders)
           else
             orders == old(orders) && r == Err(ServiceError(StatusFailedMessage, RemoteFailure))
    {
      if |orders| == 0 {
        return Err(ServiceError(StatusFailedMessage, NotLoaded));
      }
      var rowIndex := FindIndex(orders, order.orderNumber);
      if rowIndex == -1 {
        return Err(ServiceError(StatusFailedMessage, NotFound(order.orderNumber)));
      }
      ghost var plan := CheckboxPlan(iso, rowIndex, isChecked, issueDate);
      ghost var t0 := sheet.rows;
      var written := UpdateOrderStatus(rowIndex, if isChecked then CheckedStatus else UncheckedStatus, issueDate,
                                       Up(failAt, 0));
      if written.Err? {
        assert Attempted(plan, failAt) == 0;
        return Err(ServiceError(StatusFailedMessage, RemoteFailure));
      }
      assert plan[..1] == plan && Attempted(plan, failAt) == 1;
      assert sheet.rows == ApplyPlan(t0, plan);
      var loaded := LoadOrders(Up(failAt, 1));
      if loaded.Err? {
        return Err(ServiceError(StatusFailedMessage, RemoteFailure));
      }
      return Ok(loaded.value);
    }

    /** One tick of `watchForChanges`: reload, then hand the orders to the
        callback (the returned value); a failed reload is only logged. */
    method CheckForChanges(up: bool) returns (delivered: Option<seq<Order>>)
      modifies this`orders
      ensures up ==> orders == RowsToOrders(iso, DataRows(sheet.rows)) && delivered == Some(orders)
      ensures !up ==> orders == old(orders) && delivered == None
    {
      var loaded := LoadOrders(up);
      delivered := if loaded.Ok? then Some(loaded.value) else None;
    }
  }
}
