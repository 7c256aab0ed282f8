# Order distribution board: sheet service and move confirmation, in Dafny

This project models the sequential core of a production-order scheduling
board. Orders live in a spreadsheet (one row per order, columns A to N);
the board shows them by planned day and lets an operator move an order to
another day or tick it as delivered.

Two source files are modelled:

- `src/services/googleSheetsService.js`, the order-sheet service. The
  remote sheet becomes an in-memory table (`SheetTable.Spreadsheet`, a class
  over `seq<seq<string>>` whose row 0 is sheet row 1, the header). The
  service (`SheetsService.GoogleSheetsService`) is a class with the field
  `orders`. Its operations are ordered cell writes followed by a wholesale
  reload that replaces `orders`. The date canonicaliser `formatDate` is the
  pure function `DateFormat.FormatDate`. The row-to-order mapping of
  `loadOrders` is the pure function `SheetsService.RowToOrder`.
- `src/components/OrderDistributionTable.js`, the board. The class
  `DistributionTable.Board` holds the component state (`isModalOpen`,
  `pendingMove`, `scale`, `view`), the `orders` list it replaces through
  `setOrders`, and the last `setError` message. Its handlers are methods.
  The zoom and view switches, `getGridColumns` and the per-day
  `allCompleted` flag are pure functions.

Every remote call may fail. A compound operation takes `failAt`, the
ordinal (from 0, in call order) of the remote call that fails, or `None`
when all succeed. The write calls of an operation are a `Plan`, one batch
per call. `Run(t, plan, failAt)` is the sheet after the writes that happen
before the failure. A failure does not undo earlier writes.

Behaviour the model keeps as the code has it:

- Status comparisons are exact and case-sensitive. The checkbox writes the
  capitalised `Выдан`/`Готов`, while the board tests for `готов`/`выдан`.
  An order ticked on the board therefore reads back unticked and is not
  treated as completed (`BoardProperties.TickedOrderReadsBackUnticked`).
- The board's `executeOrderMove` writes the delivery date whenever asked,
  whatever the status. The service's `handleOrderMove` writes it only for
  status `выдан`.
- Neither move checks that the order was found. A missing order has row
  index -1 and overwrites sheet row 1, the header
  (`ServiceProperties.MissingOrderMove`).
- The modal's "Нет" button only hides the modal. The recorded move stays,
  and nothing is written. One could expect declining to still move the
  order without its delivery date; that is what `handleModalClose` does,
  but nothing on the board calls it. The model follows the code
  (`BoardProperties.DeclinedMove`).
- Status tests are case-sensitive, and dates with two-digit years are
  not recognised, in the code and in the model alike.

## Model

| member | source | states |
|---|---|---|
| `DateFormat.FormatDate` | src/services/googleSheetsService.js:313-350 | empty input gives `''`; an input without 'T' comes back in `DD.MM.YYYY` form, or unchanged when it matches none of the three patterns |
| `DateFormat.SameDateSameKey` | src/services/googleSheetsService.js:326-343 | `DD/MM/YYYY`, `DD.MM.YYYY` and `YYYY-MM-DD` spellings of one day, month and year all give the same `DD.MM.YYYY` key, with the digit groups kept |
| `DateFormat.RecognisedIsSpelling` | src/services/googleSheetsService.js:332-345 | every recognised input is one of the three spellings of some digit triple, and its key is that triple in dot form |
| `DateFormat.FormatDateIdempotent` | src/services/googleSheetsService.js:326-349 | on every input without 'T', formatting twice equals formatting once, and the result has no 'T' |
| `DateFormat.SettledForms` | src/services/googleSheetsService.js:341-349 | a 'T'-free date already in `DD.MM.YYYY` form, or matching none of the patterns, comes back unchanged |
| `DateFormat.CanonicalExample` | src/services/googleSheetsService.js:327-342 | `15/03/2024`, `15.03.2024` and `2024-03-15` all give `15.03.2024` |
| `SheetTable.WriteCells` | src/services/googleSheetsService.js:295-302 | a single-cell write sets exactly that cell and leaves every other cell as it was |
| `SheetTable.Spreadsheet.GetValues` | src/services/googleSheetsService.js:198-201 | reading `A2:N` returns every row below the header, or fails |
| `SheetTable.Spreadsheet.Update` | src/services/googleSheetsService.js:295-302 | a refused request or an invalid row changes nothing; otherwise the sheet is the old one with that one cell written |
| `SheetTable.Spreadsheet.BatchUpdate` | src/services/googleSheetsService.js:252-258 | the batch is applied in order, whole, or not at all |
| `SheetsService.FindIndex` | src/services/googleSheetsService.js:369 | the result is -1 or an index into the list |
| `SheetsService.FindIndexSpec` | src/services/googleSheetsService.js:369 | -1 exactly when no order has the number; otherwise the first index whose order has it |
| `SheetsService.GoogleSheetsService.constructor` | src/services/googleSheetsService.js:4-10 | a new service has no orders loaded |
| `SheetsService.GoogleSheetsService.LoadOrders` | src/services/googleSheetsService.js:195-233 | on success `orders` becomes one order per data row, in row order, and is returned; on failure `orders` is unchanged and the error is passed on |
| `SheetsService.GoogleSheetsService.UpdateOrderStatus` | src/services/googleSheetsService.js:235-263 | writes `H{i+2}` and `K{i+2}` in one batch, the delivery cell being `''` for a null or empty date; a failure writes nothing |
| `SheetsService.GoogleSheetsService.UpdatePlannedDate` | src/services/googleSheetsService.js:290-307 | writes `formatDate(d)` to `G{i+2}` and nothing else; a failure writes nothing |
| `SheetsService.GoogleSheetsService.WriteMove` | src/services/googleSheetsService.js:372-377 | the planned-date write, then the status batch when the delivery date follows, cut short at the first failed call; reports whether every write went through |
| `SheetsService.GoogleSheetsService.HandleOrderMove` | src/services/googleSheetsService.js:367-384 | writes the planned date, then the status batch only when asked and the status is exactly `выдан`, then reloads; any failure stops there and gives the one generic move error with `orders` unchanged |
| `SheetsService.GoogleSheetsService.HandleCheckboxChange` | src/services/googleSheetsService.js:386-410 | no orders loaded or order absent: the generic status error before any write; otherwise writes `Выдан` or `Готов` with the issue date, then reloads |
| `SheetsService.GoogleSheetsService.CheckForChanges` | src/services/googleSheetsService.js:272-279 | one polling tick: a successful reload is handed to the callback; a failed one hands nothing and keeps `orders` |
| `SheetsService.ApplyPlanStep` | src/services/googleSheetsService.js:367-384 | the writes of an operation take effect one call after another, in order |
| `ServiceProperties.StatusWritesEffect` | src/services/googleSheetsService.js:237-249 | the status batch changes exactly two cells: the status in column H and the delivery date in column K of row `i+2` |
| `ServiceProperties.PlannedDateWriteEffect` | src/services/googleSheetsService.js:293-301 | the planned-date write changes exactly `G{i+2}`, to `formatDate(d)` |
| `SheetsService.RowToOrderColumns` | src/services/googleSheetsService.js:204-223 | each field of a loaded order comes from its own column A to N, and only the three date columns A, G and K are passed through `formatDate` |
| `SheetsService.RowsToOrders` | src/services/googleSheetsService.js:204 | one order for each row read |
| `SheetsService.RowsToOrdersRows` | src/services/googleSheetsService.js:204-223 | order `k` belongs to row `k`: it carries that row's number and status as written |
| `ServiceProperties.RowsToOrdersUpdate` | src/services/googleSheetsService.js:204-225 | the row mapping is one to one: replacing one row replaces exactly the order at the same index |
| `ServiceProperties.PlannedDateColumnIsField` | src/services/googleSheetsService.js:206 | column G read back is the formatted planned date and no other field |
| `ServiceProperties.StatusColumnsAreFields` | src/services/googleSheetsService.js:207-217 | columns H and K read back are the status and the formatted delivery date and no other fields |
| `ServiceProperties.ReloadAfterPlannedDate` | src/services/googleSheetsService.js:290-302 | after a planned-date write to a data row, the reload differs from the old one only in that order's planned date |
| `ServiceProperties.ReloadAfterStatusWrites` | src/services/googleSheetsService.js:235-249 | after a status batch to a data row, the reload differs only in that order's status and delivery date |
| `ServiceProperties.PropagatedReload` | src/services/googleSheetsService.js:372-379 | after the planned-date write and the status batch to one data row, the reload has that order with the new planned date, its own status and the target as delivery date, all other orders unchanged |
| `ServiceProperties.MoveReload` | src/services/googleSheetsService.js:367-379 | a completed move of a loaded order gives a reload with its new planned date, plus status and delivery date when propagated, all other orders unchanged |
| `ServiceProperties.MissingOrderMove` | src/services/googleSheetsService.js:369-372 | moving an order that is not loaded writes the header cell `G1` and the reload brings back the same orders |
| `ServiceProperties.CheckboxReload` | src/services/googleSheetsService.js:392-405 | a completed checkbox change gives a reload in which only that order's status and delivery date changed, to the written values |
| `ServiceProperties.NoRollback` | src/services/googleSheetsService.js:367-383 | when the first call fails nothing is written; when the second fails the first write stays |
| `ServiceProperties.ServiceMovePropagation` | src/services/googleSheetsService.js:371-377 | the planned date is always the first write; the status batch follows exactly when asked and the status is `выдан` |
| `ServiceProperties.LoadIsStable` | src/services/googleSheetsService.js:204-225 | loading a row, writing the order back as a row and loading again gives the same order (dates without 'T') |
| `ServiceProperties.OrderRowRoundTrip` | src/services/googleSheetsService.js:204-225 | an order whose three dates are each free of 'T' and either in `DD.MM.YYYY` form or matching no date pattern survives being written as a row and read back |
| `DistributionTable.IsCompleted` | src/components/OrderDistributionTable.js:48 | only the lower-case `готов` and `выдан` count as completed, so the capitalised `Готов` and `Выдан` the checkbox writes do not |
| `DistributionTable.Ticked` | src/components/OrderDistributionTable.js:202 | a ticked box means a completed order |
| `DistributionTable.EveryDelivered` | src/components/OrderDistributionTable.js:165 | true exactly when every order of the list has status `выдан` |
| `DistributionTable.AllCompleted` | src/components/OrderDistributionTable.js:164-165 | a day is all completed exactly when it has an entry with at least one order and all of them are `выдан` |
| `DistributionTable.Board.constructor` | src/components/OrderDistributionTable.js:19-22 | the modal is closed, no move is pending, zoom `default`, view `table` |
| `DistributionTable.Board.ExecuteOrderMove` | src/components/OrderDistributionTable.js:28-44 | writes the planned date, then the status batch whenever asked, then reloads into the board; any failure stops there, sets the update error and keeps the orders |
| `DistributionTable.Board.HandleOrderMove` | src/components/OrderDistributionTable.js:46-65 | status exactly `готов` or `выдан`: the move is recorded, replacing any earlier one, the modal opens and nothing is written; otherwise the move runs at once without the delivery date |
| `DistributionTable.Board.HandleModalConfirm` | src/components/OrderDistributionTable.js:67-74 | runs the recorded move with the delivery date, if there is one, and ends with the modal closed and no move pending |
| `DistributionTable.Board.HandleModalClose` | src/components/OrderDistributionTable.js:76-83 | runs the recorded move without the delivery date, if there is one, and ends with the modal closed and no move pending |
| `DistributionTable.Board.ModalCloseClicked` | src/components/OrderDistributionTable.js:241 | "Нет" closes the modal and keeps the recorded move |
| `DistributionTable.Board.ZoomOutClicked` | src/components/OrderDistributionTable.js:126-133 | the zoom takes one step out |
| `DistributionTable.Board.ZoomInClicked` | src/components/OrderDistributionTable.js:139-146 | the zoom takes one step in |
| `DistributionTable.Board.ToggleViewClicked` | src/components/OrderDistributionTable.js:155 | the view switches |
| `DistributionTable.ZoomOut` | src/components/OrderDistributionTable.js:126-133 | the minus button goes one step down from `full` to `large` to `medium` to `default`, stays at `default`, and sends an unknown value to `default` |
| `DistributionTable.ZoomIn` | src/components/OrderDistributionTable.js:139-146 | the plus button goes one step up from `default` to `full`, stays at `full`, and sends an unknown value to `full` |
| `BoardProperties.ZoomRoundTrips` | src/components/OrderDistributionTable.js:126-146 | zoom-in undoes zoom-out except at `default`; zoom-out undoes zoom-in except at `full` |
| `DistributionTable.ToggleView` | src/components/OrderDistributionTable.js:155 | the switch always gives one of the two views, and a different one from a known view |
| `BoardProperties.ToggleViewInvolution` | src/components/OrderDistributionTable.js:155 | switching twice gives back the view |
| `DistributionTable.GridColumns` | src/components/OrderDistributionTable.js:101-117 | kanban, and only kanban, gives the scrolling row; the table gives the grid of its zoom level, 7, 4, 2 or 1 columns, and an unknown zoom gives the 7-column grid |
| `BoardProperties.GridColumnsLayout` | src/components/OrderDistributionTable.js:101-117 | kanban ignores the zoom; an unknown zoom lays out as `default`; the four zoom levels give four different grids |
| `BoardProperties.BoardLayout` | src/components/OrderDistributionTable.js:101-117 | a board whose zoom and view are among the named values shows kanban as the scrolling row and the table as the grid of its zoom level |
| `BoardProperties.UndeliveredOrderBlocksDay` | src/components/OrderDistributionTable.js:164-165 | one order that is not `выдан` keeps its day from being all completed; a day with no entry never is |
| `BoardProperties.TickedOrderReadsBackUnticked` | src/services/googleSheetsService.js:404 | after ticking, the order reads back as `Выдан`: its box shows unticked, a drop of it is not treated as completed, and its day is not all completed |
| `BoardProperties.UntickedOrderReadsBackIncomplete` | src/services/googleSheetsService.js:404 | after unticking, the order reads back as `Готов`, which the board does not treat as completed |
| `BoardProperties.ConfirmedReadyOrderGetsDeliveryDate` | src/components/OrderDistributionTable.js:34-35 | a confirmed move of a `готов` order writes the target as delivery date, which the service's own move would not |
| `BoardProperties.ConfirmedMove` | src/components/OrderDistributionTable.js:46-74 | drop of a completed order then "Да": the planned and delivery dates both become the target |
| `BoardProperties.DeclinedMove` | src/components/OrderDistributionTable.js:239-244 | drop of a completed order then "Нет": nothing is written and the move stays recorded |
| `BoardProperties.DirectMove` | src/components/OrderDistributionTable.js:46-60 | drop of an order that is not completed: only its planned date changes, with no confirmation step |
| `BoardProperties.FailedMove` | src/components/OrderDistributionTable.js:40-43 | a drop whose first write fails leaves the sheet and the orders as they were and sets the error |

## Left out

- `FormatDate`: says nothing about inputs containing 'T'. That branch uses the JavaScript `Date` object and the local timezone; it is the parameter `iso`, left arbitrary. A `Date` value passed as a target day is modelled by its ISO text, which takes the same branch.
- Script loading, the OAuth token client, token storage and expiry, `signIn`, `signOut`, `getUserInfo` and `checkEditAccess` (googleSheetsService.js:12-193, 412-422): network and authentication plumbing over libraries that are not part of this model.
- `watchForChanges` (googleSheetsService.js:265-288): the initialisation check, the 3-second interval and the unsubscribe function are timing code. Only one tick is modelled (`CheckForChanges`).
- `getTotalArea` and the `parseFloat(order.area)` card text: floating point. `getCellWidth` returns a constant class name.
- The calendar window and the grouping of orders by day: `days` and `ordersMap` are inputs of the board, built by `../utils/dateUtils`, which is not part of this model. `AllCompleted` takes `ordersMap` and the day's key as given.
- Drag-and-drop payload serialisation (OrderDistributionTable.js:89-99): the dropped order is taken to be the dragged one.
- Rendering, `ConfirmationModal.js` beyond the wiring of its two buttons, the login page and the app shell; `hasEditAccess` only gates the UI controls.
- Concurrency: each handler is one sequential method. Interleaved handlers and overlapping reloads are not modelled.
- `LoadOrders` on a sheet with no data rows: the Sheets API then omits `values` and `.map` throws. The model returns the empty list. The trimming of trailing empty rows by the API is not modelled either.
- Cells hold the written text verbatim. The sheet's `USER_ENTERED` parsing of dates is not modelled.
- The board's outer `catch` in `handleOrderMove` (OrderDistributionTable.js:61-64) cannot be reached, because `executeOrderMove` catches everything itself. Its message is never set in the model.
- The `handleCheckboxChange` the board calls at line 203 is a prop of the parent component, which is not part of this model. The service's `handleCheckboxChange` is modelled, with `issueDate` optional.
