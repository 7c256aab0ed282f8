/**
 * The scheduling board (src/components/OrderDistributionTable.js): the
 * pending-move confirmation machine, the zoom and view switches, the grid
 * layout they select, and the per-day "all delivered" flag.
 */
module DistributionTable {
  import opened Wrappers
  import opened DateFormat
  import opened SheetTable
  import opened SheetsService

  /** Zoom levels and views, as the component spells them. */
  const DefaultScale := "default"
  const MediumScale := "medium"
  const LargeScale := "large"
  const FullScale := "full"
  const TableView := "table"
  const KanbanView := "kanban"

  /** The message `executeOrderMove` reports through `setError`. */
  const UpdateFailedMessage := "Ошибка при обновлении заказа"

  predicate KnownScale(s: string) {
    s == DefaultScale || s == MediumScale || s == LargeScale || s == FullScale
  }

  predicate KnownView(v: string) {
    v == TableView || v == KanbanView
  }

  /** The minus button: one step towards `default`, which stays put, as
      does any unknown value (it becomes `default`). */
  function ZoomOut(s: string): (r: string)
    ensures KnownScale(r)
    ensures KnownScale(s) ==> Level(r) == if Level(s) == 0 then 0 else Level(s) - 1
    ensures !KnownScale(s) ==> r == DefaultScale
  {
    if s == FullScale then LargeScale
    else if s == LargeScale then MediumScale
    else if s == MediumScale then DefaultScale
    else DefaultScale
  }

  /** The plus button: one step towards `full`; `full` and any unknown value
      give `full`. */
  function ZoomIn(s: string): (r: string)
    ensures KnownScale(r)
    ensures KnownScale(s) ==> Level(r) == if Level(s) == 3 then 3 else Level(s) + 1
    ensures !KnownScale(s) ==> r == FullScale
  {
    if s == DefaultScale then MediumScale
    else if s == MediumScale then LargeScale
    else if s == LargeScale then FullScale
    else FullScale
  }

  /** The view switch. */
  function ToggleView(v: string): (r: string)
    ensures KnownView(r)
    ensures KnownView(v) ==> r != v
  {
    if v == TableView then KanbanView else TableView
  }

  /** `getGridColumns()`: the container's layout classes. */
  function GridColumns(view: string, scale: string): (r: string)
    ensures view == KanbanView <==> r == "flex overflow-x-auto"
    ensures view != KanbanView ==> r == GridOfLevel(if KnownScale(scale) then Level(scale) else 0)
  {
    if view == KanbanView then "flex overflow-x-auto"
    else if scale == DefaultScale then "grid grid-cols-7"
    else if scale == MediumScale then "grid grid-cols-4"
    else if scale == LargeScale then "grid grid-cols-2"
    else if scale == FullScale then "grid grid-cols-1"
    else "grid grid-cols-7"
  }

  /** The grid of each zoom level: 7, 4, 2 and 1 columns. */
  function GridOfLevel(level: nat): string
    requires level < 4
  {
    ["grid grid-cols-7", "grid grid-cols-4", "grid grid-cols-2", "grid grid-cols-1"][level]
  }

  /** The zoom steps as numbers, `default` = 0 to `full` = 3. */
  function Level(s: string): nat
    requires KnownScale(s)
  {
    if s == DefaultScale then 0 else if s == MediumScale then 1 else if s == LargeScale then 2 else 3
  }

  /** The checkbox of a card is ticked exactly for status `выдан` (line 202). */
  function Ticked(o: Order): (r: bool)
    ensures r ==> IsCompleted(o.status)
  {
    o.status == Delivered
  }

  /** The completion test of a move: exact, case-sensitive spelling. */
  function IsCompleted(status: string): (r: bool)
    ensures r ==> status != CheckedStatus && status != UncheckedStatus
  {
    status == Ready || status == Delivered
  }

  /** `ordersMap[key] || []` */
  function DayOrders(ordersMap: map<string, seq<Order>>, key: string): seq<Order> {
    if key in ordersMap then ordersMap[key] else []
  }

  /** `orders.every(order => order.status === 'выдан')` */
  function EveryDelivered(orders: seq<Order>): (r: bool)
    ensures r <==> forall k :: 0 <= k < |orders| ==> Ticked(orders[k])
  {
    if orders == [] then true
    else orders[0].status == Delivered && EveryDelivered(orders[1..])
  }

  /** A day's `allCompleted`: it has orders and every one is delivered. */
  function AllCompleted(ordersMap: map<string, seq<Order>>, key: string): (r: bool)
    ensures r <==> key in ordersMap && |ordersMap[key]| > 0 &&
                   forall k :: 0 <= k < |ordersMap[key]| ==> ordersMap[key][k].status == Delivered
  {
    var dayOrders := DayOrders(ordersMap, key);
    |dayOrders| > 0 && EveryDelivered(dayOrders)
  }

  /** The move waiting for the modal's answer. */
  datatype PendingMove = PendingMove(order: Order, sourceDate: string, targetDate: string, rowIndex: int)

  /**
   * The board's state: the modal flag and the pending move (component
   * state), the zoom and view, and the `orders` list the parent hands in
   * and replaces through `setOrders`; `error` is the last message passed to
   * `setError`.
   */
  class Board {
    var isModalOpen: bool
    var pendingMove: Option<PendingMove>
    var scale: string
    var view: string
    var orders: seq<Order>
    var error: Option<string>
    const service: GoogleSheetsService

    /** The modal is only ever open over a recorded move; zoom and view stay
        among the named values. */
    ghost predicate Valid()
      reads this
    {
      (isModalOpen ==> pendingMove.Some?) && KnownScale(scale) && KnownView(view)
    }

    constructor (service: GoogleSheetsService, orders: seq<Order>)
      ensures Valid()
      ensures this.service == service && this.orders == orders
      ensures !isModalOpen && pendingMove == None && scale == DefaultScale && view == TableView && error == None
    {
      this.service := service;
      this.orders := orders;
      isModalOpen := false;
      pendingMove := None;
      scale := DefaultScale;
      view := TableView;
      error := None;
    }

    /**
     * What `executeOrderMove` leaves behind: the planned date written, the
     * status batch too when `updateDeliveryDate` holds (whatever the
     * status), the writes cut short at a failure; after a full run both the
     * board and the service hold the reload, after a failure only the error
     * is set.
     */
    twostate predicate MoveExecuted(order: Order, targetDate: string, updateDeliveryDate: bool, failAt: Option<nat>)
      reads this, service, service.sheet
    {
      var plan := MovePlan(service.iso, FindIndex(old(orders), order.orderNumber), order, targetDate,
                           updateDeliveryDate);
      && PlanValid(plan)
      && service.sheet.rows == Run(old(service.sheet.rows), plan, failAt)
      && if Completes(plan, failAt) then
           && orders == RowsToOrders(service.iso, DataRows(service.sheet.rows))
           && service.orders == orders
           && error == old(error)
         else
           && orders == old(orders)
           && service.orders == old(service.orders)
           && error == Some(UpdateFailedMessage)
    }

    method ExecuteOrderMove(order: Order, sourceDate: string, targetDate: string, updateDeliveryDate: bool,
                            failAt: Option<nat>)
      requires Valid()
      modifies this, service`orders, service.sheet
      ensures Valid()
      ensures MoveExecuted(order, targetDate, updateDeliveryDate, failAt)
      ensures isModalOpen == old(isModalOpen) && pendingMove == old(pendingMove)
      ensures scale == old(scale) && view == old(view)
    {
      var rowIndex := FindIndex(orders, order.orderNumber);
      var done := service.WriteMove(rowIndex, order, targetDate, updateDeliveryDate, failAt);
      if !done {
        error := Some(UpdateFailedMessage);
        return;
      }
      var updatedOrders := service.LoadOrders(Up(failAt, if updateDeliveryDate then 2 else 1));
      if updatedOrders.Err? {
        error := Some(UpdateFailedMessage);
        return;
      }
      orders := updatedOrders.value;
    }

    /**
     * A drop of `order` on `targetDate`. An order whose status is exactly
     * `готов` or `выдан` is not moved: the move is recorded, replacing any
     * earlier one, and the modal opens. Any other order is moved at once,
     * without touching its delivery date.
     */
    method HandleOrderMove(order: Order, sourceDate: string, targetDate: string, failAt: Option<nat>)
      requires Valid()
      modifies this, service`orders, service.sheet
      ensures Valid()
      ensures IsCompleted(order.status) ==>
        && pendingMove == Some(PendingMove(order, sourceDate, targetDate, FindIndex(old(orders), order.orderNumber)))
        && isModalOpen
        && orders == old(orders) && error == old(error)
        && service.orders == old(service.orders) && service.sheet.rows == old(service.sheet.rows)
      ensures !IsCompleted(order.status) ==>
        && MoveExecuted(order, targetDate, false, failAt)
        && isModalOpen == old(isModalOpen) && pendingMove == old(pendingMove)
      ensures scale == old(scale) && view == old(view)
    {
      var isCompleted := order.status == Ready || order.status == Delivered;
      if isCompleted {
        pendingMove := Some(PendingMove(order, sourceDate, targetDate, FindIndex(orders, order.orderNumber)));
        isModalOpen := true;
      } else {
        ExecuteOrderMove(order, sourceDate, targetDate, false, failAt);
      }
    }

    /** "Да": carry out the recorded move with the delivery date following,
        then close the modal and forget the move. */
    method HandleModalConfirm(failAt: Option<nat>)
      requires Valid()
      modifies this, service`orders, service.sheet
      ensures Valid()
      ensures !isModalOpen && pendingMove == None
      ensures old(pendingMove).Some? ==>
        MoveExecuted(old(pendingMove).value.order, old(pendingMove).value.targetDate, true, failAt)
      ensures old(pendingMove).None? ==>
        && orders == old(orders) && error == old(error)
        && service.orders == old(service.orders) && service.sheet.rows == old(service.sheet.rows)
      ensures scale == old(scale) && view == old(view)
    {
      if pendingMove.Some? {
        var PendingMove(order, sourceDate, targetDate, _) := pendingMove.value;
        ExecuteOrderMove(order, sourceDate, targetDate, true, failAt);
      }
      isModalOpen := false;
      pendingMove := None;
    }

    /** `handleModalClose`: carry out the recorded move without the delivery
        date, then close the modal and forget the move. Nothing on the board
        calls it. */
    method HandleModalClose(failAt: Option<nat>)
      requires Valid()
      modifies this, service`orders, service.sheet
      ensures Valid()
      ensures !isModalOpen && pendingMove == None
      ensures old(pendingMove).Some? ==>
        MoveExecuted(old(pendingMove).value.order, old(pendingMove).value.targetDate, false, failAt)
      ensures old(pendingMove).None? ==>
        && orders == old(orders) && error == old(error)
        && service.orders == old(service.orders) && service.sheet.rows == old(service.sheet.rows)
      ensures scale == old(scale) && view == old(view)
    {
      if pendingMove.Some? {
        var PendingMove(order, sourceDate, targetDate, _) := pendingMove.value;
        ExecuteOrderMove(order, sourceDate, targetDate, false, failAt);
      }
      isModalOpen := false;
      pendingMove := None;
    }

    /** "Нет": the modal's `onClose` only hides the modal; the recorded move
        stays and nothing is written. */
    method ModalCloseClicked()
      requires Valid()
      modifies this`isModalOpen
      ensures Valid()
      ensures !isModalOpen && pendingMove == old(pendingMove)
    {
      isModalOpen := false;
    }

    method ZoomOutClicked()
      requires Valid()
      modifies this`scale
      ensures Valid()
      ensures scale == ZoomOut(old(scale))
    {
      scale := ZoomOut(scale);
    }

    method ZoomInClicked()
      requires Valid()
      modifies this`scale
      ensures Valid()
      ensures scale == ZoomIn(old(scale))
    {
      scale := ZoomIn(scale);
    }

    method ToggleViewClicked()
      requires Valid()
      modifies this`view
      ensures Valid()
      ensures view == ToggleView(old(view))
    {
      view := ToggleView(view);
    }
  }
}
