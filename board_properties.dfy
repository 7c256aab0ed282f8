/**
 * Properties of the board: its zoom and view switches, the day flag, how a
 * status written by the checkbox reads back, and whole interactions
 * (drop, then the modal's answer) on a board whose orders were loaded from
 * the sheet.
 */
module BoardProperties {
  import opened Wrappers
  import opened DateFormat
  import opened SheetTable
  import opened SheetsService
  import opened ServiceProperties
  import opened DistributionTable

  /** Zoom-in undoes zoom-out except at `default`, and zoom-out undoes
      zoom-in except at `full`. */
  lemma ZoomRoundTrips(s: string)
    requires KnownScale(s)
    ensures s != DefaultScale ==> ZoomIn(ZoomOut(s)) == s
    ensures s != FullScale ==> ZoomOut(ZoomIn(s)) == s
  {
  }

  /** The view switch is an involution on the two views. */
  lemma ToggleViewInvolution(v: string)
    ensures KnownView(v) ==> ToggleView(ToggleView(v)) == v
  {
  }

  /** The kanban view ignores the zoom; an unknown zoom lays out like
      `default`; the four zoom levels give four different grids. */
  lemma GridColumnsLayout(view: string, s: string, s': string)
    ensures GridColumns(KanbanView, s) == "flex overflow-x-auto"
    ensures !KnownScale(s) ==> GridColumns(view, s) == GridColumns(view, DefaultScale)
    ensures KnownScale(s) && KnownScale(s') && s != s' ==> GridColumns(TableView, s) != GridColumns(TableView, s')
  {
  }

  /** What a board in a valid state shows: kanban as a scrolling row, the
      table as the grid of its zoom level. */
  lemma BoardLayout(b: Board)
    requires b.Valid()
    ensures GridColumns(b.view, b.scale)
         == if b.view == KanbanView then "flex overflow-x-auto" else GridOfLevel(Level(b.scale))
  {
  }

  /** One order that is not `выдан` keeps its day from being all
      completed, and a day without an entry never is. */
  lemma {:induction false} UndeliveredOrderBlocksDay(ordersMap: map<string, seq<Order>>, key: string, k: nat)
    requires key in ordersMap && k < |ordersMap[key]| && !Ticked(ordersMap[key][k])
    ensures !AllCompleted(ordersMap, key)
    ensures forall other :: other !in ordersMap ==> !AllCompleted(ordersMap, other)
  {
  }

  /**
   * Ticking an order's box writes `Выдан`; read back, the order's box is
   * not ticked, a later drop of it is not treated as completed, and a day
   * holding it is not all completed.
   */
  lemma {:induction false} TickedOrderReadsBackUnticked(iso: IsoConverter, t: Table, i: nat, issueDate: Option<string>)
    requires i < |DataRows(t)|
    ensures PlanValid(CheckboxPlan(iso, i, true, issueDate))
    ensures var after := RowsToOrders(iso, DataRows(Run(t, CheckboxPlan(iso, i, true, issueDate), None)));
      && i < |after|
      && after[i].status == CheckedStatus
      && !Ticked(after[i])
      && !IsCompleted(after[i].status)
      && forall m: map<string, seq<Order>>, key :: key in m && m[key] == [after[i]] ==> !AllCompleted(m, key)
  {
    CheckboxReload(iso, t, i, true, issueDate);
  }

  /** Unticking writes `Готов`, which the board does not treat as completed
      either. */
  lemma {:induction false} UntickedOrderReadsBackIncomplete(iso: IsoConverter, t: Table, i: nat, issueDate: Option<string>)
    requires i < |DataRows(t)|
    ensures PlanValid(CheckboxPlan(iso, i, false, issueDate))
    ensures var after := RowsToOrders(iso, DataRows(Run(t, CheckboxPlan(iso, i, false, issueDate), None)));
      && i < |after|
      && after[i].status == UncheckedStatus
      && !IsCompleted(after[i].status)
  {
    CheckboxReload(iso, t, i, false, issueDate);
  }

  /**
   * A `готов` order dropped on the board and confirmed gets the target as
   * its delivery date, which the service's own move would not write for
   * that status.
   */
  lemma {:induction false} ConfirmedReadyOrderGetsDeliveryDate(iso: IsoConverter, t: Table, i: nat, order: Order, target: string)
    requires i < |DataRows(t)| && order.status == Ready
    ensures |MovePlan(iso, i, order, target, order.status == Delivered)| == 1
    ensures var after := RowsToOrders(iso, DataRows(Run(t, MovePlan(iso, i, order, target, true), None)));
      && i < |after|
      && after[i].deliveryDate == FormatDate(iso, FormatDate(iso, target))
      && after[i].status == Ready
  {
    MoveReload(iso, t, i, order, target, true);
  }

  /** The board's orders, the service's orders and the sheet agree. */
  ghost predicate InSync(b: Board)
    reads b, b.service, b.service.sheet
  {
    b.orders == b.service.orders == RowsToOrders(b.service.iso, DataRows(b.service.sheet.rows))
  }

  /** A completed order dropped and confirmed, every call succeeding: both
      its planned date and its delivery date become the target. */
  method ConfirmedMove(b: Board, order: Order, sourceDate: string, targetDate: string)
    requires b.Valid() && InSync(b)
    requires IsCompleted(order.status) && FindIndex(b.orders, order.orderNumber) >= 0
    modifies b, b.service`orders, b.service.sheet
    ensures b.Valid() && InSync(b)
    ensures var i := FindIndex(old(b.orders), order.orderNumber);
      var key := FormatDate(b.service.iso, FormatDate(b.service.iso, targetDate));
      b.orders == old(b.orders)[i := old(b.orders)[i].(plannedDate := key, status := order.status, deliveryDate := key)]
    ensures !b.isModalOpen && b.pendingMove == None
  {
    ghost var i := FindIndex(b.orders, order.orderNumber);
    MoveReload(b.service.iso, b.service.sheet.rows, i, order, targetDate, true);
    b.HandleOrderMove(order, sourceDate, targetDate, None);
    b.HandleModalConfirm(None);
  }

  /** A completed order dropped and declined with "Нет": nothing is written
      and the move stays recorded behind the closed modal. */
  method DeclinedMove(b: Board, order: Order, sourceDate: string, targetDate: string)
    requires b.Valid() && IsCompleted(order.status)
    modifies b, b.service`orders, b.service.sheet
    ensures b.Valid()
    ensures b.orders == old(b.orders) && b.service.sheet.rows == old(b.service.sheet.rows)
    ensures !b.isModalOpen
    ensures b.pendingMove == Some(PendingMove(order, sourceDate, targetDate, FindIndex(old(b.orders), order.orderNumber)))
  {
    b.HandleOrderMove(order, sourceDate, targetDate, None);
    b.ModalCloseClicked();
  }

  /** An order that is not completed, dropped, every call succeeding: its
      planned date becomes the target and nothing else about it changes. */
  method DirectMove(b: Board, order: Order, sourceDate: string, targetDate: string)
    requires b.Valid() && InSync(b)
    requires !IsCompleted(order.status) && FindIndex(b.orders, order.orderNumber) >= 0
    modifies b, b.service`orders, b.service.sheet
    ensures b.Valid() && InSync(b)
    ensures var i := FindIndex(old(b.orders), order.orderNumber);
      var key := FormatDate(b.service.iso, FormatDate(b.service.iso, targetDate));
      b.orders == old(b.orders)[i := old(b.orders)[i].(plannedDate := key)]
    ensures b.isModalOpen == old(b.isModalOpen) && b.pendingMove == old(b.pendingMove)
  {
    ghost var i := FindIndex(b.orders, order.orderNumber);
    MoveReload(b.service.iso, b.service.sheet.rows, i, order, targetDate, false);
    b.HandleOrderMove(order, sourceDate, targetDate, None);
  }

  /** A drop whose first write fails leaves the sheet and the orders as
      they were and reports the error. */
  method FailedMove(b: Board, order: Order, sourceDate: string, targetDate: string)
    requires b.Valid() && !IsCompleted(order.status)
    modifies b, b.service`orders, b.service.sheet
    ensures b.Valid()
    ensures b.orders == old(b.orders) && b.service.sheet.rows == old(b.service.sheet.rows)
    ensures b.error == Some(UpdateFailedMessage)
  {
    b.HandleOrderMove(order, sourceDate, targetDate, Some(0));
    ghost var plan := MovePlan(b.service.iso, FindIndex(old(b.orders), order.orderNumber), order, targetDate, false);
    assert plan[..0] == [];
  }
}
