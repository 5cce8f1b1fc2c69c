# Portfolio core logic, modelled in Dafny

This project models the logic that matters in a developer's portfolio repository. That logic lives in two small web back ends and in the state handling of several front-end pages and scripts:

- **NovaManager back end** (`main.py`): a workshop's ledger and logistics engine. It covers:
  - stock purchases, sales and withdrawals;
  - salary advances settled oldest first against a payroll record;
  - work trips that take materials out of stock, return them on close and pay meters times the configured price;
  - a daily attendance upsert;
  - the monthly dashboard with its per-day chart;
  - the monthly expense listing and cost summary.

  It is modelled as one class, `NovaLedger.Ledger`, with one field per table. Each endpoint is one atomic method, and the loops are value methods proved against specification functions in `NovaTables` and `NovaReports`.
- **NexusHardware back end** (`main.py` and `logica_stock.c`): the reorder-point formula, implemented once in C and once in Python, the checkout that takes one unit per listed product, and the recent-transactions aggregation (`NexusStore`, `StockLogicC`).
- **Front-end state**:
  - the PC builder stepper (`PcBuilder`);
  - the shop cart and checkout (`Storefront`);
  - trip start and active trips (`TripStart`, `ActiveTrips`);
  - attendance (`AttendanceView`) and payroll drafts (`Personnel`);
  - fleet service status (`FleetManager`);
  - the stock page (`StockPage`) and the cents-entry movement form (`MovementForm`);
  - the mini terminal (`MiniTerminal`) and the key visualiser (`KeyVisualizer`);
  - the latency monitor (`LatencyMonitor`);
  - the status badge (`StatusBadge`) and the date formatter (`DateUtils`).

Shared modules:

- `Prelude`: Option, sums and counts.
- `JsText`: JavaScript string operations (lower/upper case, trim, split, join, `includes`, digit strings).
- `JsNumbers`: `parseFloat` and `Number()` as a `JsNumber` that is `NaN` or a real. Both read decimal literals with an optional exponent (`1e3`), and `Number()` also reads the `0x`, `0o` and `0b` integer forms.
- `JsObjects`: plain JavaScript objects as ordered key/value lists.
- `Dialog`: the front ends' alert messages.

Money, meters and quantities are real numbers. The C `(int)` casts are modelled as truncation toward zero. The C engine's 32-bit `int` width is not modelled: integers are unbounded, and `StockLogicC.DefinedInC` names the inputs for which the C code computes what the model computes.

## Model

| member | source | states |
|---|---|---|
| NovaTables.DaysInMonth | public/NovaManager/backend/main.py:149 | the length of a month is between 28 and 31 days |
| NovaTables.UnitCost | public/NovaManager/backend/main.py:212 | unit cost times the initial quantity is the batch cost when the quantity is positive, and the unit cost is 0 otherwise |
| NovaTables.Withdraw | public/NovaManager/backend/main.py:291-293 | a withdrawal lowers the quantity by exactly the amount asked; the item is DEPLETED once the quantity is at most 0 and keeps its status otherwise; nothing else about the item changes |
| NovaTables.WithdrawNeverRevives | public/NovaManager/backend/main.py:318-320 | no withdrawal makes a DEPLETED item AVAILABLE again |
| NovaTables.WithdrawTwice | public/NovaManager/backend/main.py:291-293 | two withdrawals in a row equal one withdrawal of the combined quantity |
| NovaTables.PriceReadings | public/NovaManager/backend/main.py:761-762 | the close-time price reading, which has no handler, agrees with the payroll reading, which has one, and fails exactly on malformed text |
| NovaTables.PendingOf | public/NovaManager/backend/main.py:379 | the pending list holds exactly the employee's unsettled advances |
| NovaTables.InsertByDate | public/NovaManager/backend/main.py:379 | a stable insertion adds one entry and keeps every index in range |
| NovaTables.InsertByDatePermutes | public/NovaManager/backend/main.py:379 | the insertion adds its element and loses nothing (multiset) |
| NovaTables.InsertByDateSorted | public/NovaManager/backend/main.py:379 | inserting into a date-sorted list keeps it sorted |
| NovaTables.SortByDate | public/NovaManager/backend/main.py:379 | sorting keeps the length and every index in range |
| NovaTables.SortByDatePermutes | public/NovaManager/backend/main.py:379 | sorting by date is a permutation |
| NovaTables.SortByDateSorted | public/NovaManager/backend/main.py:379 | the sorted list is oldest first |
| NovaTables.PendingByDate | public/NovaManager/backend/main.py:379 | the pending list indexes the advance table |
| NovaTables.PendingByDateSpec | public/NovaManager/backend/main.py:379 | the list is sorted by date and holds an index exactly when that advance is the employee's and unsettled |
| NovaTables.GreedyCount | public/NovaManager/backend/main.py:386-394 | the walk settles at most every pending advance |
| NovaTables.GreedyCountSpec | public/NovaManager/backend/main.py:386-394 | the settled advances add up to no more than the gross, and when the walk stops early the first unsettled advance is more than what remains |
| NovaTables.GreedySettlesAll | public/NovaManager/backend/main.py:386-394 | when the gross covers all pending advances, every one is settled |
| NovaTables.NetPay | public/NovaManager/backend/main.py:383 | the cash paid is never negative, never below gross minus pending, and is one of 0 and gross minus pending |
| NovaTables.UncoveredAdvanceMeansNoCash | public/NovaManager/backend/main.py:383-394 | when an advance stays pending no cash is paid, and the rest of the gross after the settled ones is non-negative: it is neither paid out nor credited |
| NovaTables.SettleAll | public/NovaManager/backend/main.py:387-389 | exactly the listed advances become settled, and every other advance is unchanged |
| NovaTables.FindDayRecord | public/NovaManager/backend/main.py:596-600 | finds the first record of the employee on that calendar day, or reports that none exists |
| NovaTables.UpsertOnePerDay | public/NovaManager/backend/main.py:602-612 | an upsert keeps at most one record per employee and calendar day |
| NovaTables.UpsertSpec | public/NovaManager/backend/main.py:602-612 | an upsert adds at most one record, changes no record's key, leaves records of other keys alone, and records the new flag for its key |
| NovaTables.UpsertAllSpec | public/NovaManager/backend/main.py:589-612 | after a bulk save there is still one record per employee and day, old records keep their keys, and every item has its record |
| NovaTables.LastItemWins | public/NovaManager/backend/main.py:589-612 | the last item of the body decides the flag of its employee and day |
| NovaTables.ItemRecorded | public/NovaManager/backend/main.py:589-612 | an item's flag is recorded when no later item names the same employee and day |
| NovaTables.NewAssignments | public/NovaManager/backend/main.py:711-720 | each assignment snapshots the current price with zero meters and zero earnings |
| NovaTables.NewMaterials | public/NovaManager/backend/main.py:723-733 | each material line starts with its quantity out and nothing returned or used |
| NovaTables.DeductAllSpec | public/NovaManager/backend/main.py:739-741 | creating a trip lowers each stock item by everything the trip takes of it, counting repeated lines, and leaves its status alone |
| NovaTables.FindMaterial | public/NovaManager/backend/main.py:767 | finds the first trip material with the id, or reports that none has it |
| NovaTables.FindAssignment | public/NovaManager/backend/main.py:778 | finds the first assignment with the id, or reports that none has it |
| NovaTables.Returned | public/NovaManager/backend/main.py:769-770 | a returned row keeps its id, item and quantity out, records the returned quantity, and its used quantity is non-negative and at least out minus returned |
| NovaTables.LastReturn | public/NovaManager/backend/main.py:765-770 | none exactly when no close line names the row; otherwise the returned quantity of a line naming it that no later line overrides |
| NovaTables.ApplyReturnsRows | public/NovaManager/backend/main.py:765-770 | the row the endpoint finds for an id a line names ends as Returned with the last line's quantity; every other row is unchanged |
| NovaTables.ApplyReturnsStock | public/NovaManager/backend/main.py:765-774 | rows keep their identity, and each stock item grows by exactly the quantities returned against it, repeated lines counted |
| NovaTables.ApplyReturnsSpec | public/NovaManager/backend/main.py:765-774 | material rows keep their identity; the row found for a named id takes the last returned quantity with used = max(0, out − returned), every other row is untouched; each stock item grows by exactly what was returned against it |
| NovaTables.Assigned | public/NovaManager/backend/main.py:780-782 | an updated assignment keeps its id, employee and presence, holds the meters, earns meters × price, and takes the price as its snapshot only on close |
| NovaTables.LastMeters | public/NovaManager/backend/main.py:777-782 | none exactly when no line names the assignment; otherwise the meters of a line naming it that no later line overrides |
| NovaTables.ApplyAllMetersRows | public/NovaManager/backend/main.py:777-782 | the assignment the endpoint finds for an id a line names ends as Assigned with the last line's meters; every other assignment is unchanged |
| NovaTables.ApplyAllMetersSpec | public/NovaManager/backend/main.py:777-782 | assignments keep their identity; the one found for a named id takes the last line's meters and earns them times the price, every other one is untouched; a progress update keeps every price snapshot |
| NovaTables.ApplyAllMetersEarned | public/NovaManager/backend/main.py:808-812 | every changed assignment earns its meters times the price, with meters from a line of the request and, on close, the price as snapshot |
| NovaTables.RoundTripStock | public/NovaManager/backend/main.py:735-741 | taking a quantity out and returning part of it leaves the item at its quantity minus what was used, exactly when no more came back than went out |
| NovaLedger.SettleOldestFirst | public/NovaManager/backend/main.py:386-394 | the settlement loop settles exactly the first GreedyCount pending advances |
| NovaLedger.SettleAdvances | public/NovaManager/backend/main.py:379-394 | the whole settlement step equals its specification function SettlePayroll |
| NovaLedger.TakeMaterials | public/NovaManager/backend/main.py:723-741 | the stock loop of trip creation equals DeductAll |
| NovaLedger.ReturnMaterials | public/NovaManager/backend/main.py:765-774 | the return loop of trip close equals ApplyReturns |
| NovaLedger.RecordMeters | public/NovaManager/backend/main.py:777-782 | the meters loop equals ApplyAllMeters |
| NovaLedger.UpsertAttendance | public/NovaManager/backend/main.py:589-612 | the upsert loop equals UpsertAll, keeps one record per employee and day, and each reply row is the record its item wrote |
| NovaLedger.Ledger.CreateStockItem | public/NovaManager/backend/main.py:208-245 | the new item is AVAILABLE with quantity = initial quantity and the computed unit cost; its cost is booked as an EXPENSE under "Insumos / Materiales"; no other table changes |
| NovaLedger.Ledger.SellStockItem | public/NovaManager/backend/main.py:251-297 | 404 for an unknown item and 400 for short stock, with nothing changed; otherwise the item is withdrawn, an INCOME of quantity × unit price is booked and a usage with that total points at it |
| NovaLedger.Ledger.UseStockItem | public/NovaManager/backend/main.py:299-324 | the same guards as a sale; a successful use withdraws the quantity and logs a usage with the default description, and books no transaction |
| NovaLedger.Ledger.AddEmployeeAdvance | public/NovaManager/backend/main.py:439-476 | 404 for an unknown employee; otherwise an unsettled advance and an EXPENSE of the same amount and date are recorded |
| NovaLedger.Ledger.AddPayrollRecord | public/NovaManager/backend/main.py:362-433 | 404 for an unknown employee; otherwise gross = meters × price, advances are settled oldest first, a paid record holds the gross, and the EXPENSE booked is the net cash |
| NovaLedger.Ledger.CreateWorkTrip | public/NovaManager/backend/main.py:683-745 | the trip is appended OPEN with price-snapshot assignments and fresh material lines, and the stock loses every quantity taken |
| NovaLedger.Ledger.CloseWorkTrip | public/NovaManager/backend/main.py:751-791 | 404 for an unknown trip, 400 for a closed one, 500 for a malformed price, each with nothing changed; otherwise returns go back to stock, earnings are meters × price, and the trip is CLOSED |
| NovaLedger.Ledger.UpdateTripProgress | public/NovaManager/backend/main.py:793-817 | the same guards as a close; only the named assignments' meters and earnings change, and the trip stays OPEN |
| NovaLedger.Ledger.SaveDailyAttendance | public/NovaManager/backend/main.py:581-618 | the attendance table becomes the upsert of every item, in order, and keeps one record per employee and day |
| NovaLedger.Ledger.RegisterVehicleService | public/NovaManager/backend/main.py:667-680 | 404 for an unknown vehicle; otherwise the next service is due 10000 km past the current reading and the vehicle is OPERATIONAL |
| NovaReports.MonthWindowMembership | public/NovaManager/backend/main.py:883-887 | a date lies in a month's window exactly when it falls in that month (December rolls over to January) |
| NovaReports.ChartTotalIsSumDays | public/NovaManager/backend/main.py:150-160 | a chart column adds up to the per-day totals summed over the month |
| NovaReports.ChartMatchesTotals | public/NovaManager/backend/main.py:142-160 | when every day is a chart key, each chart column adds up to the dashboard total of its kind |
| NovaReports.BucketByDay | public/NovaManager/backend/main.py:150-157 | the chart loop fails with KeyError exactly when some transaction's day is not a key, and otherwise yields the chart |
| NovaReports.DashboardStatsAsWritten | public/NovaManager/backend/main.py:133-168 | the dashboard as written counts every transaction from the first of the month on, with no end date, and fails when a counted day is past the month's end |
| NovaReports.FutureDayBreaksDashboard | public/NovaManager/backend/main.py:140-155 | on 10 February 2026 a sale dated 31 March 2026 makes the dashboard fail |
| NovaReports.FutureSaleCountedThisMonth | public/NovaManager/backend/main.py:137-142 | on 10 February 2026 a sale dated 5 March is counted in February's income |
| NovaReports.TxInMonthFits | public/NovaManager/backend/main.py:149-157 | every day of a transaction in the month is a key of the chart |
| NovaReports.TxInMonthMembers | public/NovaManager/backend/main.py:136-140 | a transaction is selected exactly when it is dated in the month |
| NovaReports.DashboardStats | public/NovaManager/backend/main.py:133-168 | the dashboard bounded to the month never fails; its totals and balance count this month's transactions only; each chart column adds up to its total |
| NovaReports.DocsInMembers | public/NovaManager/backend/main.py:871 | a document is listed exactly when it is dated in the window |
| NovaReports.GetExpensesSpec | public/NovaManager/backend/main.py:859-873 | with no month filter every document is listed; with one, exactly the documents of that month are listed, or a 500 when the window cannot be built |
| NovaReports.ExpenseCostIsListingTotal | public/NovaManager/backend/main.py:899-903 | the summary's expense sum equals the total of the documents in the window |
| NovaReports.SummaryMatchesExpenses | public/NovaManager/backend/main.py:875-910 | for an explicit month, the summary succeeds exactly when the listing does, and its expense cost is the listing's total |
| NovaReports.OpenTripCostsNothing | public/NovaManager/backend/main.py:891-896 | an open trip adds nothing to labour cost |
| NovaReports.ClosingTripAddsEarnings | public/NovaManager/backend/main.py:891-896 | closing an open trip dated in the window raises labour cost by exactly its earnings |
| StockLogicC.SafetyStock | public/NexusHardware/backend/c_logic/logica_stock.c:29 | the safety stock is a fifth of the monthly sales, truncated (for non-negative sales) |
| StockLogicC.ReorderPoint | public/NexusHardware/backend/c_logic/logica_stock.c:26-32 | the reorder point is the truncated daily sales times the lead time, plus the safety stock |
| StockLogicC.CalcularNecesidadCompra | public/NexusHardware/backend/c_logic/logica_stock.c:24-42 | the result is never negative; it is 0 above the reorder point; it is positive exactly when stock is at or below the reorder point and below a month of sales plus safety, and then stock plus the order reaches that level |
| StockLogicC.EverydayInputsDefined | public/NexusHardware/backend/c_logic/logica_stock.c:24-42 | monthly sales up to a billion, a lead time up to 30 days and any non-negative 32-bit stock keep every `int` of the C function within 32 bits |
| StockLogicC.TopSalesOverflow | public/NexusHardware/backend/c_logic/logica_stock.c:37 | monthly sales of 2^31 − 1 overflow `ventas_mes + stock_seguridad` |
| NexusStore.PythonOptimizeStock | public/NexusHardware/backend/main.py:99-114 | the fallback never returns a negative number, returns 0 above the reorder point, and otherwise tops stock up to a month of sales plus safety |
| NexusStore.PythonMatchesC | public/NexusHardware/backend/main.py:97-114 | the Python fallback and the C function agree on every integer input |
| NexusStore.SuggestionFor | public/NexusHardware/backend/main.py:318-345 | sales default to 20 and lead time to 7 when missing or zero; the suggestion is the formula's value and never negative; the status is CRITICAL exactly when the suggestion is positive |
| NexusStore.GetOptimization | public/NexusHardware/backend/main.py:312-347 | the report has one suggestion per product, in catalogue order |
| NexusStore.EngineIrrelevant | public/NexusHardware/backend/main.py:324-333 | the report is the same whether the C engine or the fallback answered |
| NexusStore.CheckoutEffect | public/NexusHardware/backend/main.py:235-252 | a successful checkout lowers each product's stock by the number of times its id is listed, and writes one sale per id, in order, under one transaction id |
| NexusStore.CheckoutSucceedsIff | public/NexusHardware/backend/main.py:235-240 | checkout succeeds exactly when every id is known and its stock covers all its occurrences |
| NexusStore.CheckoutTotal | public/NexusHardware/backend/main.py:246-252 | the written sales add up to the listed products' prices |
| NexusStore.Store.Checkout | public/NexusHardware/backend/main.py:230-255 | on 404 or 400 neither stock nor sales change, because the commit comes after the loop; on success the tables become the checkout's result |
| NexusStore.FailureSticks | public/NexusHardware/backend/main.py:237-240 | once a prefix of the ids fails, the whole checkout fails with the same error |
| NexusStore.SalesOf | public/NexusHardware/backend/main.py:285 | the selected sales all belong to the transaction and come from the table |
| NexusStore.SalesOfAppend | public/NexusHardware/backend/main.py:285 | selecting a transaction's sales distributes over appending tables |
| NexusStore.CheckoutSummary | public/NexusHardware/backend/main.py:282-300 | after a checkout under a fresh transaction id, the dashboard reports that transaction with the listed products' total, one item per id and the order's purchase type |
| DateUtils.DatePart | public/NovaManager/frontend/src/utils/dateUtils.js:13 | the date part holds no `T` |
| DateUtils.FormatDateDisplay | public/NovaManager/frontend/src/utils/dateUtils.js:8-23 | the placeholder "-" comes out exactly for a missing or empty value, or for the text "-" itself |
| DateUtils.DropsTime | public/NovaManager/frontend/src/utils/dateUtils.js:13 | everything from the first `T` on is dropped |
| DateUtils.FormatsIsoDate | public/NovaManager/frontend/src/utils/dateUtils.js:13-18 | "YYYY-MM-DD", with or without a time, becomes "DD/MM/YYYY" |
| DateUtils.FormattedHasNoSeparators | public/NovaManager/frontend/src/utils/dateUtils.js:15-18 | a reformatted date contains neither a dash nor a `T` |
| DateUtils.FormatIdempotent | public/NovaManager/frontend/src/utils/dateUtils.js:8-23 | formatting a formatted value changes nothing, for every input (malformed input comes back unchanged) |
| LatencyMonitor.StatusAndBandAgree | public/FortniteLatencyMonitor/script.js:152-157 | the status (`<` at 30/60/100) and the shown band (`<=`) agree on every ping except exactly 30, 60 and 100 ms |
| LatencyMonitor.GradeMonotone | public/FortniteLatencyMonitor/script.js:159-168 | a larger ping never earns a better grade |
| LatencyMonitor.GradeWithinBand | public/FortniteLatencyMonitor/script.js:159-201 | A or better is exactly the green band, F is exactly the red band, D lies in the orange band, and C in cyan or orange |
| LatencyMonitor.Jitter | public/FortniteLatencyMonitor/script.js:130-134 | jitter is 0 while the previous sample is 0, and otherwise the distance between the two samples |
| LatencyMonitor.JitterSymmetric | public/FortniteLatencyMonitor/script.js:132 | jitter does not depend on the order of two non-zero samples |
| LatencyMonitor.MaxWith | public/FortniteLatencyMonitor/script.js:260 | the chart scale is at least 100, at least every stored sample, and is one of them |
| LatencyMonitor.PlotWithinChart | public/FortniteLatencyMonitor/script.js:267-268 | a sample up to the scale's top is drawn between 0.2·h − 10 and h − 10 |
| LatencyMonitor.ChartScaleFits | public/FortniteLatencyMonitor/script.js:260-268 | with the computed scale every stored sample is drawn inside the chart |
| LatencyMonitor.Monitor.ClickStart | public/FortniteLatencyMonitor/script.js:92-95 | a click while running does nothing; otherwise the button is disabled |
| LatencyMonitor.Monitor.Connected | public/FortniteLatencyMonitor/script.js:101-106 | after the start delay the monitor is running |
| LatencyMonitor.Monitor.Sample | public/FortniteLatencyMonitor/script.js:126-140 | while running, a sample becomes the last latency, the history drops its oldest entry and appends the sample, keeping 60 entries, and the gauge shows band, grade and jitter; not running, nothing changes |
| LatencyMonitor.Monitor.SampleFailed | public/FortniteLatencyMonitor/script.js:142-145 | a failed round trip shows the offline gauge and keeps chart and last latency |
| LatencyMonitor.ChartKeepsLatest | public/FortniteLatencyMonitor/script.js:231-232 | after n samples the chart ends with exactly those samples, oldest first |
| LatencyMonitor.Shifted | public/FortniteLatencyMonitor/script.js:14-15 | shifting samples in keeps the history length |
| KeyVisualizer.PlainKeys | public/KeyResponseVisualizer/script.js:78-88 | a key that is not renamed is upper-cased when it has one character and passes unchanged otherwise |
| KeyVisualizer.DisplayKeyIdempotent | public/KeyResponseVisualizer/script.js:78-88 | a shown name is never a lower-case letter, and normalising it again changes nothing |
| KeyVisualizer.OneCharNotRenamed | public/KeyResponseVisualizer/script.js:80-86 | the space bar is the only one-character key that is renamed |
| KeyVisualizer.KeyPanel.KeyDown | public/KeyResponseVisualizer/script.js:60-93 | a repeat event changes nothing; otherwise the key's element lights up when it exists, and the normalised name and code are shown |
| KeyVisualizer.KeyPanel.KeyUp | public/KeyResponseVisualizer/script.js:102-107 | only the released code goes dark |
| KeyVisualizer.KeyPanel.ResetCard | public/KeyResponseVisualizer/script.js:96-99 | the card returns to waiting for input |
| StatusBadge.CaseInsensitive | public/NovaManager/frontend/src/components/common/StatusBadge.jsx:8 | classification ignores letter case |
| StatusBadge.MissingIsPlain | public/NovaManager/frontend/src/components/common/StatusBadge.jsx:5-8 | a missing or empty status keeps the default grey class |
| StatusBadge.InactiveIsSuccess | public/NovaManager/frontend/src/components/common/StatusBadge.jsx:10-22 | any status containing "inactive" is classed as success, so the "inactive" test of the grey branch is never reached |
| StatusBadge.DepletedWording | public/NovaManager/frontend/src/components/common/StatusBadge.jsx:10-18 | a status containing "depleted" and no word of the earlier branches is classed as an error |
| StatusBadge.UnmatchedWording | public/NovaManager/frontend/src/components/common/StatusBadge.jsx:10-22 | a status lacking the letters every branch word needs takes the default class |
| StatusBadge.UnmatchedWordingToo | public/NovaManager/frontend/src/components/common/StatusBadge.jsx:10-22 | the same, for a second set of missing letters |
| StatusBadge.DepletedIsDanger | public/NovaManager/frontend/src/components/common/StatusBadge.jsx:16 | "DEPLETED" is classed as an error |
| StatusBadge.InStockLabelIsPlain | public/NovaManager/frontend/src/components/common/StatusBadge.jsx:10-22 | the stock page's "En Stock" label matches no branch and takes the default class |
| StatusBadge.SoldOutLabelIsPlain | public/NovaManager/frontend/src/components/common/StatusBadge.jsx:10-22 | the stock page's "Agotado" label matches no branch and takes the default class |
| MiniTerminal.Parse | src/components/MiniTerminal.jsx:44-73 | only the text "clear" selects the clearing case |
| MiniTerminal.Response | src/components/MiniTerminal.jsx:43-78 | every case but `clear` has a non-empty reply, and an unknown command yields "COMMAND NOT FOUND: <cmd>. TYPE 'HELP'" |
| MiniTerminal.ClosesOnNavigation | src/components/MiniTerminal.jsx:46-65 | the terminal closes exactly for the commands that jump to a section of the page |
| MiniTerminal.CleanIsClean | src/components/MiniTerminal.jsx:38 | a cleaned command is lower-case with no white space at either end, and cleaning twice changes nothing |
| MiniTerminal.CaseInsensitive | src/components/MiniTerminal.jsx:38 | commands are recognised whatever their letter case |
| MiniTerminal.EchoKeepsWellFormed | src/components/MiniTerminal.jsx:41-79 | appending "> cmd" and its reply keeps the scroll-back well formed |
| MiniTerminal.Terminal.HotKey | src/components/MiniTerminal.jsx:12-19 | Ctrl/Cmd+K toggles the terminal, Escape always closes it, and any other key leaves it alone |
| MiniTerminal.Terminal.Type | src/components/MiniTerminal.jsx:6 | the input box holds what was typed |
| MiniTerminal.Terminal.Execute | src/components/MiniTerminal.jsx:37-80 | a blank command does nothing; "clear" empties the history completely; anything else appends exactly "> cmd" and one reply line, and closes the terminal for navigation commands |
| MiniTerminal.Terminal.InputKeyDown | src/components/MiniTerminal.jsx:82-86 | Enter runs the typed command and then clears the input; any other key changes nothing |
| FleetManager.StatusTone | public/NovaManager/frontend/src/components/FleetManager.jsx:93-99 | red exactly under maintenance; orange exactly when the service mark is set and reached; yellow exactly within 1000 km below it; the accent style otherwise |
| FleetManager.MoreKmNoCalmer | public/NovaManager/frontend/src/components/FleetManager.jsx:93-99 | driving more never makes a card's colour less pressing |
| FleetManager.TypeIcon | public/NovaManager/frontend/src/components/FleetManager.jsx:83-91 | the fallback icon 'commute' is used exactly for types other than TRUCK, UTE, VAN and CAR |
| FleetManager.IconsTellTypesApart | public/NovaManager/frontend/src/components/FleetManager.jsx:83-91 | the four known types get four different icons |
| FleetManager.PercentService | public/NovaManager/frontend/src/components/FleetManager.jsx:127 | the share is at most 100 and 0 without a service mark; against a positive mark it is non-negative from 0 km and reaches 100 exactly at the mark |
| FleetManager.RatioBelow | public/NovaManager/frontend/src/components/FleetManager.jsx:127 | against a positive mark, the ratio reaches 100 exactly at the mark |
| FleetManager.BarTone | public/NovaManager/frontend/src/components/FleetManager.jsx:158 | the bar is red exactly above 90, and green exactly at or below 75 |
| FleetManager.OrangeMeansFullBar | public/NovaManager/frontend/src/components/FleetManager.jsx:96-158 | with a positive mark and no maintenance, the card is orange exactly when the bar is full, and the bar is then red |
| FleetManager.ServiceClearsWarning | public/NovaManager/backend/main.py:673-676 | a freshly serviced vehicle shows the calm accent card and a bar that is not full |
| FleetManager.Board.NewVehicle | public/NovaManager/frontend/src/components/FleetManager.jsx:112-116 | the add button opens a blank form for a new vehicle |
| FleetManager.Board.Edit | public/NovaManager/frontend/src/components/FleetManager.jsx:170-171 | the edit button opens the form on every field of the vehicle, status and last service date included, so the update it sends writes the vehicle back as it was |
| FleetManager.Received | public/NovaManager/backend/schemas.py:194-203 | the server stores a posted form with its own status, or "OPERATIONAL" when the body has none |
| FleetManager.EditSavesVehicle | public/NovaManager/backend/main.py:655-661 | saving an edit without touching the form writes every field of the vehicle back unchanged |
| FleetManager.NewVehicleOperational | public/NovaManager/frontend/src/components/FleetManager.jsx:15-17 | a vehicle added through the blank form is operational, never serviced, at 0 km with its first service due at 10000 km |
| FleetManager.Board.Submit | public/NovaManager/frontend/src/components/FleetManager.jsx:43-50 | an edited vehicle is sent as an update of its id, and a new one as a creation |
| FleetManager.Board.SubmitAnswered | public/NovaManager/frontend/src/components/FleetManager.jsx:52-60 | success closes and resets the form; a failure leaves it as it was |
| PcBuilder.LookupKeys | public/NexusHardware/frontend/src/components/PCBuilder.jsx:37 | a category has a selected product exactly when it is a key of the selection |
| PcBuilder.PutSpec | public/NexusHardware/frontend/src/components/PCBuilder.jsx:42 | the spread update adds the category's key, keeps one entry per category, sets its product and leaves every other category alone |
| PcBuilder.DeleteSpec | public/NexusHardware/frontend/src/components/PCBuilder.jsx:38-40 | deleting removes the category's key, empties it and leaves every other category alone |
| PcBuilder.SelectSpec | public/NexusHardware/frontend/src/components/PCBuilder.jsx:35-44 | a selection step keeps one product per category and changes only the chosen category: it holds the product, or nothing when that very product was already chosen |
| PcBuilder.PutNew | public/NexusHardware/frontend/src/components/PCBuilder.jsx:42 | a new category goes last |
| PcBuilder.DeleteAbsent | public/NexusHardware/frontend/src/components/PCBuilder.jsx:38-40 | deleting a missing category changes nothing |
| PcBuilder.DeleteLast | public/NexusHardware/frontend/src/components/PCBuilder.jsx:38-40 | deleting the category just appended restores the selection |
| PcBuilder.SelectTwiceRestores | public/NexusHardware/frontend/src/components/PCBuilder.jsx:35-44 | selecting a product twice for an empty category restores the prior selection, key order included |
| PcBuilder.TotalPut | public/NexusHardware/frontend/src/components/PCBuilder.jsx:60 | replacing a category's product swaps its old price for the new one in the total |
| PcBuilder.TotalDelete | public/NexusHardware/frontend/src/components/PCBuilder.jsx:60 | deleting a category removes its price from the total |
| PcBuilder.TotalSelect | public/NexusHardware/frontend/src/components/PCBuilder.jsx:35-60 | the total after a step changes only by the chosen category's prices |
| PcBuilder.CompileDisabledIffEmpty | public/NexusHardware/frontend/src/components/PCBuilder.jsx:220 | with positive prices, compile is disabled exactly when nothing is selected |
| PcBuilder.BuildItems | public/NexusHardware/frontend/src/components/PCBuilder.jsx:66-69 | compile sends each selected product once, in selection order, tagged 'ARMA_TU_PC' |
| PcBuilder.FindIndex | public/NexusHardware/frontend/src/components/PCBuilder.jsx:47 | the index is the first position holding the id, or -1 exactly when the id is absent |
| PcBuilder.CategoriesDistinct | public/NexusHardware/frontend/src/components/PCBuilder.jsx:6-17 | the ten step ids are pairwise different |
| PcBuilder.FindDistinct | public/NexusHardware/frontend/src/components/PCBuilder.jsx:47 | in a list without repeats an id's index is its position |
| PcBuilder.StepsStayInRangeIn | public/NexusHardware/frontend/src/components/PCBuilder.jsx:46-58 | over any step list without repeats, Next stops at the last step and Prev at the first, and each undoes the other in between |
| PcBuilder.ProgressBoundsIn | public/NexusHardware/frontend/src/components/PCBuilder.jsx:61-62 | progress lies in (0, 100] on every step, is 100 on the last and 0 for an unknown step |
| PcBuilder.StepsStayInRange | public/NexusHardware/frontend/src/components/PCBuilder.jsx:46-58 | the same, for the ten steps CPU … PERIFERICOS |
| PcBuilder.ProgressBounds | public/NexusHardware/frontend/src/components/PCBuilder.jsx:61-62 | the same bounds, for the ten steps |
| PcBuilder.Filtered | public/NexusHardware/frontend/src/components/PCBuilder.jsx:64 | the products shown are exactly those of the active category |
| Storefront.AddToCart | public/NexusHardware/frontend/src/App.jsx:47-48 | the product goes at the end, and the cart grows by one with the rest unchanged |
| Storefront.DropIndexInside | public/NexusHardware/frontend/src/App.jsx:55 | the index filter drops exactly the row at the index |
| Storefront.DropIndexOutside | public/NexusHardware/frontend/src/App.jsx:55 | an index outside the cart drops nothing |
| Storefront.RemoveOnlyThatRow | public/NexusHardware/frontend/src/App.jsx:54-56 | removing row i drops that row alone and keeps the order of the rest; any other index changes nothing |
| Storefront.CartTotalAppend | public/NexusHardware/frontend/src/components/Cart.jsx:6 | the total of two lists joined is the sum of their totals |
| Storefront.AddRaisesTotal | public/NexusHardware/frontend/src/components/Cart.jsx:6 | adding a product raises the total by its price |
| Storefront.RowShare | public/NexusHardware/frontend/src/components/Cart.jsx:6 | a row's price is its share of the total wherever the row stands |
| Storefront.RemoveLowersTotal | public/NexusHardware/frontend/src/components/Cart.jsx:6 | removing a row lowers the total by that row's price |
| Storefront.OrderIds | public/NexusHardware/frontend/src/App.jsx:61 | the order's ids are the cart's ids in cart order, duplicates included |
| Storefront.ChargedWhatWasShown | public/NexusHardware/backend/main.py:235-252 | when the cart rows are current catalogue records, the sales a successful checkout writes add up to the total the drawer showed |
| Storefront.ListPriceIsCartTotal | public/NexusHardware/frontend/src/components/Cart.jsx:6 | the catalogue prices of the order's ids add up to the cart total |
| Storefront.ScreenOf | public/NexusHardware/frontend/src/App.jsx:100-107 | the dashboard without authentication shows Login, and the dashboard is shown only when authenticated |
| Storefront.Store.Add | public/NexusHardware/frontend/src/App.jsx:47-52 | adding appends the product and opens the drawer |
| Storefront.Store.AddBuild | public/NexusHardware/frontend/src/components/PCBuilder.jsx:66-69 | a compiled build arrives as its selected products, in selection order, and opens the drawer when it is not empty |
| Storefront.Store.Remove | public/NexusHardware/frontend/src/App.jsx:54-56 | removal follows RemoveFromCart |
| Storefront.Store.BeginCheckout | public/NexusHardware/frontend/src/App.jsx:58-63 | a checkout marks the cart busy and sends the cart's ids |
| Storefront.Store.FinishCheckout | public/NexusHardware/frontend/src/App.jsx:72-90 | the cart is emptied and closed only on success and left unchanged on error; the busy flag is cleared either way |
| Storefront.Store.Login | public/NexusHardware/frontend/src/App.jsx:93-97 | a login authenticates the user and switches to the dashboard, which is then shown |
| Storefront.Products | public/NexusHardware/frontend/src/App.jsx:47 | dropping the tags keeps the products in order |
| Storefront.BuildArrivesInOrder | public/NexusHardware/frontend/src/components/PCBuilder.jsx:66-69 | the rows a build adds are its selected products in selection order |
| Storefront.NoDoubleCheckout | public/NexusHardware/frontend/src/components/Cart.jsx:45-90 | the button is disabled while a checkout runs, and otherwise exactly when the empty state is shown |
| TripStart.InsertKey | public/NovaManager/frontend/src/components/TripStart.jsx:78 | adding a key keeps the keys increasing and adds exactly that key |
| TripStart.RemoveKey | public/NovaManager/frontend/src/components/TripStart.jsx:76 | deleting a key keeps the keys increasing and removes exactly that key |
| TripStart.ToggleEmployee | public/NovaManager/frontend/src/components/TripStart.jsx:72-82 | a toggle adds or removes the one employee and leaves every other employee as it was |
| TripStart.SameKeys | public/NovaManager/frontend/src/components/TripStart.jsx:115 | two key lists listed in increasing order with the same members are identical |
| TripStart.ToggleTwice | public/NovaManager/frontend/src/components/TripStart.jsx:72-82 | toggling the same employee twice restores the prior selection |
| TripStart.FindAbsent | public/NovaManager/frontend/src/components/TripStart.jsx:86 | the lookup finds nothing exactly when no entry has the item |
| TripStart.SetQuantity | public/NovaManager/frontend/src/components/TripStart.jsx:88 | the map branch keeps every entry's item |
| TripStart.SetQuantityFind | public/NovaManager/frontend/src/components/TripStart.jsx:88 | the map branch gives the item's entry the new quantity and leaves other items alone |
| TripStart.ChangeMaterial | public/NovaManager/frontend/src/components/TripStart.jsx:84-93 | the item's entry takes parseFloat(qty), or a new entry is appended for a new item; no other item's quantity changes; there is never a second entry for an item |
| TripStart.RemoveMaterial | public/NovaManager/frontend/src/components/TripStart.jsx:95-97 | exactly the item's entries go and every other entry stays |
| TripStart.AddThenRemove | public/NovaManager/frontend/src/components/TripStart.jsx:84-97 | adding a new item and removing it gives back the list |
| TripStart.RemoveOfAbsent | public/NovaManager/frontend/src/components/TripStart.jsx:96 | removing an item that is not listed changes nothing |
| TripStart.RemoveAppended | public/NovaManager/frontend/src/components/TripStart.jsx:96 | removing the item just appended gives what removing it before would |
| TripStart.Check | public/NovaManager/frontend/src/components/TripStart.jsx:100-101 | submit is refused exactly when the description is empty or no employee is selected, and the description is checked first |
| TripStart.CrewPayload | public/NovaManager/frontend/src/components/TripStart.jsx:115-118 | every selected employee is sent once, in key order, as present |
| TripStart.MaterialsPayload | public/NovaManager/frontend/src/components/TripStart.jsx:119 | only materials with a positive quantity are sent |
| TripStart.DeductsChosenQuantity | public/NovaManager/frontend/src/components/TripStart.jsx:119 | with one entry per item, the payload takes from each stock item exactly the positive quantity the form shows for it |
| TripStart.PayloadAfterCheck | public/NovaManager/frontend/src/components/TripStart.jsx:99-120 | a body that passes the guards names a description and at least one crew member, all present |
| TripStart.Merge | public/NovaManager/frontend/src/components/TripStart.jsx:46-49 | the merged list holds every employee, in order |
| TripStart.MergedPresence | public/NovaManager/frontend/src/components/TripStart.jsx:42-49 | an employee without an attendance record is not present; otherwise the flag comes from the last record |
| TripStart.Selectable | public/NovaManager/frontend/src/components/TripStart.jsx:57 | the selectable stock is exactly the AVAILABLE items with a positive quantity |
| TripStart.Operational | public/NovaManager/frontend/src/components/TripStart.jsx:62 | the offered vehicles are exactly the OPERATIONAL ones |
| TripStart.TripForm.Load | public/NovaManager/frontend/src/components/TripStart.jsx:31-62 | loading sets the merged roster, the selectable stock and the operational vehicles |
| TripStart.TripForm.SetDescription | public/NovaManager/frontend/src/components/TripStart.jsx:14 | the description holds what was typed |
| TripStart.TripForm.SetDate | public/NovaManager/frontend/src/components/TripStart.jsx:163-168 | the date holds the day picked |
| TripStart.TripForm.SetVehicle | public/NovaManager/frontend/src/components/TripStart.jsx:112 | the vehicle holds the choice |
| TripStart.TripForm.Toggle | public/NovaManager/frontend/src/components/TripStart.jsx:72-82 | the crew follows ToggleEmployee and keeps its invariant |
| TripStart.TripForm.SetMaterial | public/NovaManager/frontend/src/components/TripStart.jsx:84-93 | the materials follow ChangeMaterial and keep one entry per item |
| TripStart.TripForm.DropMaterial | public/NovaManager/frontend/src/components/TripStart.jsx:95-97 | the materials follow RemoveMaterial |
| TripStart.TripForm.Submit | public/NovaManager/frontend/src/components/TripStart.jsx:99-149 | a refusal names the failed guard; declining the confirmation cancels; otherwise the body is posted; only an accepted request resets description, vehicle, crew and materials |
| ActiveTrips.Filtered | public/NovaManager/frontend/src/components/ActiveTrips.jsx:55-66 | the shown trips are exactly those of the list that match both the search and the status filter, and there are no more of them than trips |
| ActiveTrips.FilteredConcat | public/NovaManager/frontend/src/components/ActiveTrips.jsx:55-66 | the filter keeps list order: filtering two joined lists joins their filtered lists |
| ActiveTrips.EmptySearchShowsAll | public/NovaManager/frontend/src/components/ActiveTrips.jsx:57-62 | with no search text the 'ALL' filter shows every trip, in order |
| ActiveTrips.CompletedFilterIsEmpty | public/NovaManager/frontend/src/components/ActiveTrips.jsx:409 | as written, the 'COMPLETED' button matches no trip the back end sends (it writes "CLOSED"), so it always shows an empty list |
| ActiveTrips.StatusButtonsPartition | public/NovaManager/frontend/src/components/ActiveTrips.jsx:62 | with the intended codes, 'ALL' keeps every matching trip and the other two buttons keep exactly the open and the closed ones |
| ActiveTrips.CountStatus | public/NovaManager/frontend/src/components/ActiveTrips.jsx:69 | a status count is at most the number of trips |
| ActiveTrips.CountStatusIsFilter | public/NovaManager/frontend/src/components/ActiveTrips.jsx:69 | the count for a status is the length of the list the filter shows for that status with no search text |
| ActiveTrips.CountStatusOn | public/NovaManager/frontend/src/components/ActiveTrips.jsx:70 | the count for today is at most the count for that status |
| ActiveTrips.CompletedTodayIsZero | public/NovaManager/frontend/src/components/ActiveTrips.jsx:70 | as written, the "finished today" counter is always 0 |
| ActiveTrips.KpiAddsUp | public/NovaManager/frontend/src/components/ActiveTrips.jsx:68-72 | with the intended code, active plus closed trips are all trips, and those closed today are among the closed ones |
| ActiveTrips.CsvRows | public/NovaManager/frontend/src/components/ActiveTrips.jsx:77-85 | one line per shown trip, in order |
| ActiveTrips.RowIsOneLine | public/NovaManager/frontend/src/components/ActiveTrips.jsx:77-89 | a trip whose text fields hold no line break gives a one-line CSV row |
| ActiveTrips.CsvLines | public/NovaManager/frontend/src/components/ActiveTrips.jsx:75-90 | the export is the header line followed by exactly one line per shown trip |
| ActiveTrips.RoundClose | public/NovaManager/frontend/src/components/ActiveTrips.jsx:307 | rounding to cents moves a value by at most half a cent |
| ActiveTrips.EntriesPayload | public/NovaManager/frontend/src/components/ActiveTrips.jsx:117-120 | the body has one entry per key, in key order, with each value read by parseFloat, a falsy value read as 0 |
| ActiveTrips.AssignmentIds | public/NovaManager/frontend/src/components/ActiveTrips.jsx:292 | the ids of a trip's assignments, in order |
| ActiveTrips.SeedSpec | public/NovaManager/frontend/src/components/ActiveTrips.jsx:102-113 | opening the form seeds every material's returned quantity and every assignment's meters from the trip, and nothing else |
| ActiveTrips.SplitShareClose | public/NovaManager/frontend/src/components/ActiveTrips.jsx:300-310 | the rounded shares of "Dividir" add up to the total within half a cent per person |
| ActiveTrips.Board.Load | public/NovaManager/frontend/src/components/ActiveTrips.jsx:34-40 | loading stores the trips |
| ActiveTrips.Board.SetSearch | public/NovaManager/frontend/src/components/ActiveTrips.jsx:404 | the search field holds what was typed |
| ActiveTrips.Board.SetChoice | public/NovaManager/frontend/src/components/ActiveTrips.jsx:409-412 | the filter holds the button pressed |
| ActiveTrips.Board.ShownAsWritten | public/NovaManager/frontend/src/components/ActiveTrips.jsx:55-66 | the list the page shows with its codes as written: empty under COMPLETADOS, and the corrected list under the other two buttons |
| ActiveTrips.Board.Shown | public/NovaManager/frontend/src/components/ActiveTrips.jsx:55-66 | the corrected list: exactly the trips that match the search, only the open ones under ABIERTOS and only the closed ones under COMPLETADOS |
| ActiveTrips.Board.OpenCloseForm | public/NovaManager/frontend/src/components/ActiveTrips.jsx:102-113 | opening the form on a trip fills both objects afresh from the trip's rows |
| ActiveTrips.Board.EditReturn | public/NovaManager/frontend/src/components/ActiveTrips.jsx:25 | typing a returned quantity sets that material's entry |
| ActiveTrips.Board.EditMeters | public/NovaManager/frontend/src/components/ActiveTrips.jsx:26 | typing meters sets that assignment's entry |
| ActiveTrips.Board.BulkAll | public/NovaManager/frontend/src/components/ActiveTrips.jsx:284-294 | "Todos" gives every assignment the typed number and nothing else; an empty field or no assignments changes nothing |
| ActiveTrips.Board.BulkSplit | public/NovaManager/frontend/src/components/ActiveTrips.jsx:300-311 | "Dividir" gives every assignment the total divided by their number, as cents text; an empty field or no assignments changes nothing |
| ActiveTrips.Board.ProgressPayload | public/NovaManager/frontend/src/components/ActiveTrips.jsx:115-122 | a progress save sends the meters and an empty materials list |
| ActiveTrips.Board.CloseRequest | public/NovaManager/frontend/src/components/ActiveTrips.jsx:145-158 | a close sends every edited material and every assignment's meters |
| ActiveTrips.Board.CloseAnswered | public/NovaManager/frontend/src/components/ActiveTrips.jsx:168-173 | a successful close leaves the form; a failure keeps it open |
| ActiveTrips.ProgressNamesEachAssignment | public/NovaManager/frontend/src/components/ActiveTrips.jsx:110-122 | once the form is open, the progress body names each assignment once, in increasing id order |
| AttendanceView.Ids | public/NovaManager/frontend/src/components/Attendance.jsx:89-90 | the ids of the loaded employees, in order |
| AttendanceView.Pairs | public/NovaManager/frontend/src/components/Attendance.jsx:57-59 | the records become the pairs the loop sets, in order |
| AttendanceView.LoadedFlag | public/NovaManager/frontend/src/components/Attendance.jsx:55-60 | each employee shows the flag of the last record sent for it, and absent when there is none |
| AttendanceView.Toggle | public/NovaManager/frontend/src/components/Attendance.jsx:80-85 | a click flips only the given employee's flag (a missing flag becomes present) |
| AttendanceView.ToggleTwice | public/NovaManager/frontend/src/components/Attendance.jsx:80-85 | two clicks restore every card, and restore the object itself when the flag existed |
| AttendanceView.PresentAmong | public/NovaManager/frontend/src/components/Attendance.jsx:142-143 | the present cards are among the loaded employees |
| AttendanceView.AbsentCount | public/NovaManager/frontend/src/components/Attendance.jsx:144 | the absent cards and the present cards together make up the whole list |
| AttendanceView.AbsentAsWrittenGoesNegative | public/NovaManager/frontend/src/components/Attendance.jsx:143-144 | as written, one loaded employee and two leftover true flags show an absent count of -1 |
| AttendanceView.TalliedAbsent | public/NovaManager/frontend/src/components/Attendance.jsx:142-144 | while the true flags are exactly the loaded employees shown present, the as-written count equals the cards' count |
| AttendanceView.PresentAmongOneChange | public/NovaManager/frontend/src/components/Attendance.jsx:80-85 | changing one key's flag changes the present tally by that key's card alone |
| AttendanceView.PresentAmongUniform | public/NovaManager/frontend/src/components/Attendance.jsx:135-139 | when every card shows the same flag, the present tally is all or none |
| AttendanceView.MarkAllTallies | public/NovaManager/frontend/src/components/Attendance.jsx:135-143 | after markAll the sheet is tallied, and present is everyone or no one |
| AttendanceView.ToggleKeepsTally | public/NovaManager/frontend/src/components/Attendance.jsx:80-85 | a click on a loaded employee keeps the sheet tallied |
| AttendanceView.Members | public/NovaManager/frontend/src/components/Attendance.jsx:239 | a group's section holds exactly the employees with that group id |
| AttendanceView.Loose | public/NovaManager/frontend/src/components/Attendance.jsx:287-294 | the unassigned section holds exactly the employees with no group id |
| AttendanceView.GroupCardsSpec | public/NovaManager/frontend/src/components/Attendance.jsx:239 | the group sections hold exactly the employees whose group is listed |
| AttendanceView.CardShown | public/NovaManager/frontend/src/components/Attendance.jsx:239-294 | an employee gets a card exactly when it has no group or its group is listed |
| AttendanceView.Payload | public/NovaManager/frontend/src/components/Attendance.jsx:89-93 | the save body has exactly one entry per loaded employee, in order, on the sheet's date |
| AttendanceView.ToRequest | public/NovaManager/frontend/src/components/Attendance.jsx:89-93 | the body as the server reads it keeps each employee and flag |
| AttendanceView.SavedAsShown | public/NovaManager/frontend/src/components/Attendance.jsx:87-100 | after the bulk save the table records, for every loaded employee on that day, the flag its card showed (absent for a missing flag) |
| AttendanceView.Sheet.Load | public/NovaManager/frontend/src/components/Attendance.jsx:21-78 | an invalid date sets the error message and loads nothing; a failed request sets the load error; otherwise groups, employees and flags are loaded, with an error for a non-array employee list |
| AttendanceView.Sheet.ToggleCard | public/NovaManager/frontend/src/components/Attendance.jsx:80-85 | a click follows Toggle |
| AttendanceView.Sheet.MarkAll | public/NovaManager/frontend/src/components/Attendance.jsx:135-139 | markAll maps every loaded employee to the status and drops every other key |
| AttendanceView.Sheet.SaveBody | public/NovaManager/frontend/src/components/Attendance.jsx:89-93 | the save sends Payload |
| AttendanceView.Sheet.SaveAnswered | public/NovaManager/frontend/src/components/Attendance.jsx:102-109 | the three answers show their three messages |
| Personnel.DraftChange | public/NovaManager/frontend/src/components/Personal.jsx:115-123 | the edited field takes the value, the other field keeps its text or the seed ('0' meters, today's date), and no other employee's draft changes |
| Personnel.DraftEditsCommute | public/NovaManager/frontend/src/components/Personal.jsx:115-123 | editing a row's meters and its date gives the same drafts in either order |
| Personnel.PayGuardOnDigits | public/NovaManager/frontend/src/components/Personal.jsx:125-137 | a draft of plain digits passes the pay guard exactly when its value is positive, and is sent as that number |
| Personnel.SeedAloneRefused | public/NovaManager/frontend/src/components/Personal.jsx:115-128 | a row whose only edit was its date carries the seeded '0' meters, so paying it is refused |
| Personnel.Unsettled | public/NovaManager/frontend/src/components/Personal.jsx:282 | the unsettled amounts are no more than the advances |
| Personnel.PreviewAt | public/NovaManager/frontend/src/components/Personal.jsx:282-284 | the pending total is the unsettled advances' sum, and the net is never negative, at least the gross less that sum, and either 0 or exactly that difference |
| Personnel.MobilePreview | public/NovaManager/frontend/src/components/Personal.jsx:350-352 | the corrected mobile card shows the desktop table's preview |
| Personnel.MobileDisagrees | public/NovaManager/frontend/src/components/Personal.jsx:351 | as written, one meter at a configured price of 5000 shows 5000 on the desktop table and 100000 on the mobile card |
| Personnel.EmployeeAdvances | public/NovaManager/backend/main.py:379 | an employee's advances are among the table's advances |
| Personnel.UnsettledIsPending | public/NovaManager/backend/main.py:379-380 | the amounts the preview sums are, in table order, those of the advances the payroll endpoint treats as pending |
| Personnel.SumAmountsPermutation | public/NovaManager/backend/main.py:379-380 | the pending total does not depend on the order the advances are listed in |
| Personnel.PendingMatchesServer | public/NovaManager/frontend/src/components/Personal.jsx:282 | the pending figure a row shows is the total the payroll endpoint subtracts, although the endpoint sorts the advances by date |
| Personnel.PreviewIsPaid | public/NovaManager/backend/main.py:363-384 | when the meters parse to the number sent, the net shown on the desktop table and on the corrected mobile card is the cash the payment pays out |
| Personnel.PreviewNet | public/NovaManager/frontend/src/components/Personal.jsx:283-284 | the preview's net is the payroll endpoint's net for that gross and pending total |
| Personnel.Withdrawable | public/NovaManager/frontend/src/components/Personal.jsx:54 | the stock offered for withdrawal is exactly the items with positive quantity |
| Personnel.Sheet.LoadPrice | public/NovaManager/frontend/src/components/Personal.jsx:58-66 | an ok answer sets the meter price to the parsed value or 0; any other answer keeps it |
| Personnel.Sheet.LoadStock | public/NovaManager/frontend/src/components/Personal.jsx:51-55 | the stock list becomes Withdrawable of the answer |
| Personnel.Sheet.ChangeDraft | public/NovaManager/frontend/src/components/Personal.jsx:115-123 | the drafts follow DraftChange |
| Personnel.Sheet.Pay | public/NovaManager/frontend/src/components/Personal.jsx:125-138 | a refused draft raises "Ingresa los metros realizados." and sends nothing; otherwise the draft's meters and date are sent |
| Personnel.Sheet.PayDone | public/NovaManager/frontend/src/components/Personal.jsx:141-147 | after the answer only that employee's draft is dropped, and the success message shows |
| Personnel.Sheet.RecordAdvance | public/NovaManager/frontend/src/components/Personal.jsx:193-203 | nothing is sent exactly when the amount is NaN or not positive; otherwise the parsed amount and description are sent |
| StockPage.StatusText | public/NovaManager/backend/main.py:215-222 | the status text is "AVAILABLE" exactly for an available batch |
| StockPage.BadgeLabel | public/NovaManager/frontend/src/components/Stock.jsx:179 | the badge reads "En Stock" exactly when the row offers a sale, and either label takes the plain badge style |
| StockPage.SaleEmptiesRow | public/NovaManager/backend/main.py:292-293 | a sale that leaves nothing takes the sale button away and labels the row "Agotado"; a sale never brings the button back |
| StockPage.AddRequest | public/NovaManager/frontend/src/components/Stock.jsx:48-61 | the add form is refused exactly for an empty name or a cost or quantity parseFloat cannot read; otherwise the name and both readings are sent |
| StockPage.AddAcceptsDigits | public/NovaManager/frontend/src/components/Stock.jsx:48-61 | a named batch with digit cost and quantity is sent with their decimal values |
| StockPage.BlankAddRefused | public/NovaManager/frontend/src/components/Stock.jsx:48-55 | the blank form, and the blank form with only a name, are refused |
| StockPage.AddedItemOffered | public/NovaManager/backend/main.py:209-222 | the batch the server stores for an accepted form offers a sale straight away |
| StockPage.SellCheckOf | public/NovaManager/frontend/src/components/Stock.jsx:88-105 | the sale is incomplete exactly when the description is empty or either reading is NaN, short exactly when the stock is below the quantity, and otherwise sends the price, quantity and description |
| StockPage.SellGuardMirrorsServer | public/NovaManager/frontend/src/components/Stock.jsx:97-100 | a sale the page sends never hits the server's insufficient-stock refusal, and one it stops for stock is exactly one the server refuses |
| StockPage.BlankSellRefused | public/NovaManager/frontend/src/components/Stock.jsx:80-95 | the form a sell click opens is refused as incomplete |
| StockPage.ProfitPerUnit | public/NovaManager/frontend/src/components/Stock.jsx:379 | the profit per unit is non-negative under the profit panel, negative under the loss alert, and NaN exactly when the price text is not a number |
| StockPage.PreviewPanels | public/NovaManager/frontend/src/components/Stock.jsx:364-379 | the loss alert and the profit panel never show together, a readable positive price shows one of them, and an unreadable one shows neither |
| StockPage.IncomeOf | public/NovaManager/frontend/src/components/Stock.jsx:397 | the income is 0 when either reading is NaN and their product otherwise |
| StockPage.OrZeroOfNumber | public/NovaManager/frontend/src/components/Stock.jsx:397 | x \|\| 0 keeps every number and turns NaN into 0 |
| StockPage.IncomeIsBookedTotal | public/NovaManager/backend/main.py:252-290 | the income shown for a sale the page sends is the total the server books |
| StockPage.SentBody | public/NovaManager/frontend/src/components/Stock.jsx:88-105 | a body is sent exactly when the check passes, and it is the checked body |
| StockPage.SellAlert | public/NovaManager/frontend/src/components/Stock.jsx:92-100 | each refusal shows its message, and a sale that is sent leaves the dialog as it was |
| StockPage.FormatMoney | public/NovaManager/frontend/src/components/Stock.jsx:119-122 | the fallback prints exactly for undefined, null and NaN; otherwise the amount given |
| StockPage.ProfitPrintsAmount | public/NovaManager/frontend/src/components/Stock.jsx:376-379 | the profit panel always prints a non-negative amount, never the fallback |
| StockPage.Inventory.Load | public/NovaManager/frontend/src/components/Stock.jsx:29-41 | the list is the answer when it is an array, and empty otherwise |
| StockPage.Inventory.SellClick | public/NovaManager/frontend/src/components/Stock.jsx:80-86 | a sell click selects the row, clears the form and opens the dialog |
| StockPage.Inventory.SubmitAdd | public/NovaManager/frontend/src/components/Stock.jsx:48-61 | the body sent is AddRequest of the form, and a refusal shows the form error |
| StockPage.Inventory.AddAnswered | public/NovaManager/frontend/src/components/Stock.jsx:66-77 | success closes and clears the form with its message; a failure keeps the form and reports the error |
| StockPage.Inventory.SubmitSell | public/NovaManager/frontend/src/components/Stock.jsx:88-105 | the body sent and the dialog follow the sell check on the selected row |
| StockPage.Inventory.SellAnswered | public/NovaManager/frontend/src/components/Stock.jsx:111-116 | success closes the dialog with its message; a failure shows the error's message |
| MovementForm.ReadAmount | public/NovaManager/frontend/src/components/MovimientoForm.jsx:40-47 | the field clears exactly when the text holds no digit, and otherwise holds the digits' value as cents |
| MovementForm.NonDigitIgnored | public/NovaManager/frontend/src/components/MovimientoForm.jsx:41 | a non-digit typed or pasted anywhere changes nothing |
| MovementForm.Display | public/NovaManager/frontend/src/components/MovimientoForm.jsx:48-52 | the shown amount is never empty |
| MovementForm.DisplayDigits | public/NovaManager/frontend/src/components/MovimientoForm.jsx:48-52 | the digits of the shown amount are the whole part's then the two cents digits |
| MovementForm.DisplayReadsBack | public/NovaManager/frontend/src/components/MovimientoForm.jsx:40-53 | the shown amount reads back as the cents it shows |
| MovementForm.TypingShiftsCents | public/NovaManager/frontend/src/components/MovimientoForm.jsx:40-53 | typing a digit after the shown amount makes ten times the cents plus the digit |
| MovementForm.BackspaceDropsDigit | public/NovaManager/frontend/src/components/MovimientoForm.jsx:40-53 | deleting the shown amount's last character drops its last cents digit |
| MovementForm.ShownAmountStable | public/NovaManager/frontend/src/components/MovimientoForm.jsx:47-53 | the amount kept is never negative, and re-reading the field gives it back |
| MovementForm.Chips | public/NovaManager/frontend/src/components/MovimientoForm.jsx:56 | the chips offered are exactly the categories of the form's type |
| MovementForm.ChipsAppend | public/NovaManager/frontend/src/components/MovimientoForm.jsx:56 | filtering a joined list joins the filtered parts |
| MovementForm.ChipsOfOneKind | public/NovaManager/frontend/src/components/MovimientoForm.jsx:56 | a list of one type is offered whole under that type and not at all under another |
| MovementForm.ChipsOfBlocks | public/NovaManager/frontend/src/components/MovimientoForm.jsx:56 | a block of one type followed by a block of another splits back into the two blocks |
| MovementForm.FallbackChips | public/NovaManager/frontend/src/components/MovimientoForm.jsx:22-36 | with the fallback list an income form offers the first three categories and an expense form the other nine |
| MovementForm.StockCategoriesOffered | public/NovaManager/frontend/src/components/MovimientoForm.jsx:24-29 | the categories the stock sale and purchase book under are offered to forms of the matching type |
| MovementForm.Form.CategoriesAnswered | public/NovaManager/frontend/src/components/MovimientoForm.jsx:16-38 | a non-empty answer becomes the list, an empty one brings the fallback back, and a failure keeps the list |
| MovementForm.Form.EditAmount | public/NovaManager/frontend/src/components/MovimientoForm.jsx:40-54 | the field shows the digits as cents and the amount is those cents over 100, or both clear |
| MovementForm.Form.EditDescription | public/NovaManager/frontend/src/components/MovimientoForm.jsx:152 | the description takes the text typed |
| MovementForm.Form.PickCategory | public/NovaManager/frontend/src/components/MovimientoForm.jsx:131 | a chip click chooses that chip's category |
| MovementForm.Form.Submit | public/NovaManager/frontend/src/components/MovimientoForm.jsx:58-70 | an empty required field blocks the submit; without a category the toast asks for one; otherwise the amount shown, description, type and category are sent, not invoiced |
| MovementForm.Form.SubmitAnswered | public/NovaManager/frontend/src/components/MovimientoForm.jsx:77-83 | a parsed reply reports success; a failure reports "Error saving: " and the error |
| JsObjects.Put | public/NovaManager/frontend/src/components/Attendance.jsx:80-85 | assigning a key gives it the value and leaves every other key as it was |
| JsObjects.Delete | public/NovaManager/frontend/src/components/Personal.jsx:143-147 | deleting a key removes it and leaves every other key as it was |
| JsObjects.DeleteAfterPut | public/NovaManager/frontend/src/components/Personal.jsx:115-147 | deleting a key undoes setting it |
| JsObjects.UniformSpec | public/NovaManager/frontend/src/components/Attendance.jsx:135-139 | the object markAll builds has exactly the listed keys, each holding the status |
| JsObjects.FillAll | public/NovaManager/frontend/src/components/Attendance.jsx:135-139 | the forEach loop leaves exactly the listed keys, each holding the status |
| JsObjects.FromPairsAbsent | public/NovaManager/frontend/src/components/Attendance.jsx:55-60 | a key no record names is absent from the map |
| JsObjects.FromPairsLast | public/NovaManager/frontend/src/components/Attendance.jsx:55-60 | a key holds the flag of the last record naming it |
| JsObjects.FillPairs | public/NovaManager/frontend/src/components/Attendance.jsx:55-60 | the forEach loop leaves the object the records build in turn |
| JsObjects.CountTrue | public/NovaManager/frontend/src/components/Attendance.jsx:143 | the count of true flags is at most the number of keys |
| JsObjects.CountTruePut | public/NovaManager/frontend/src/components/Attendance.jsx:80-85 | setting a flag moves the true count by the old and the new value |
| JsObjects.UniformCount | public/NovaManager/frontend/src/components/Attendance.jsx:135-143 | after marking distinct keys present the count is their number; after marking them absent it is 0 |
| JsText.DigitsOf | public/NovaManager/frontend/src/components/MovimientoForm.jsx:41 | removing the non-digits leaves only digits, never more characters than the text |
| JsText.DigitsOfConcat | public/NovaManager/frontend/src/components/MovimientoForm.jsx:41 | the digits of a joined text are the joined digits |
| JsNumbers.ParseDigits | public/NovaManager/frontend/src/components/Stock.jsx:50-51 | a plain digit string reads as its decimal value under both parseFloat and Number |
| JsNumbers.ParseExponent | public/NovaManager/frontend/src/components/Stock.jsx:50-51 | digits, an `e` and exponent digits read as the digits' value shifted up by the exponent's decimal places, under both parseFloat and Number |
| JsNumbers.ScaleUp | public/NovaManager/frontend/src/components/Stock.jsx:50-51 | shifting up by e decimal places multiplies by ten to the e |
| JsNumbers.ExponentText | public/NovaManager/frontend/src/components/Stock.jsx:50-51 | a number field holding "1e3" reads as 1000 under both conversions |
| JsNumbers.BareMark | public/NovaManager/frontend/src/components/Stock.jsx:364-379 | an `e` with no digits after it is no exponent: parseFloat reads "1e" as 1 and Number refuses it |
| JsNumbers.HexText | public/NovaManager/frontend/src/components/Stock.jsx:364-379 | `0x` and hexadecimal digits: Number reads the digits in base 16, while parseFloat stops at the `x` and reads 0 |
| Prelude.TruncDiv | public/NexusHardware/backend/c_logic/logica_stock.c:29 | the int cast of a quotient truncates toward zero |

## Left out

- StockLogicC.CalcularNecesidadCompra: computes on unbounded integers. In C every `int` is 32-bit, and signed overflow or an out-of-range `(int)` cast is undefined, so the model matches the C code only where `DefinedInC` holds (`EverydayInputsDefined` shows the usual range; `TopSalesOverflow` shows an input outside it).
- NexusStore.PythonMatchesC: the agreement is proved over unbounded integers. The loaded C library agrees with the Python fallback only where `StockLogicC.DefinedInC` holds.
- NexusStore.SuggestionFor: for the C engine, ctypes' `c_int` argument and result types wrap integers wider than 32 bits; the model passes them unchanged.
- NexusStore.EngineIrrelevant: the two engines give the same report only for products whose sales, lead time and stock keep `StockLogicC.DefinedInC`.
- HTTP routing, FastAPI dependencies, SQLAlchemy sessions, flush/commit/refresh and every `fetch`: each endpoint is one atomic method, and each front-end request is a success/failure outcome passed in as a parameter.
- SQL row order, `ORDER BY` and `limit`: queries are read as the table sequences in insertion order.
- IEEE floating point: amounts, meters, prices and pings are exact reals (or integers where the source uses integers); rounding error is not modelled.
- `toLocaleString` and `Intl`: thousands separators and the currency symbol are not modelled; `formatMoney` and the movement form's display keep only the amount and the decimal comma.
- `toFixed(2)` is modelled as rounding to cents, halves away from zero, and its text is read back as that number.
- `Date` and the clock: dates are (year, month, day) values, "today" and "now" are parameters, and the attendance page's previous/next-day arithmetic (Attendance.jsx lines 115-133) is not modelled.
- Randomness and timing: the random trip coordinates in TripStart are not modelled, and the latency monitor's measured round trip (`performance.now` around a `fetch`) is the parameter of `Sample`.
- `toLowerCase`/`toUpperCase` are modelled on ASCII letters only; other characters pass through unchanged.
- Object keys are integers: `Object.keys` order for integer-like keys is modelled as ascending order, and string keys are not modelled.
- PDF generation, SHA-256 hashing, uuid transaction ids, ctypes loading of the C library and file uploads: these are foreign calls or I/O. Ids and hashes are opaque parameters, and the choice of engine is a parameter.
- `setTimeout` clears of messages, `console.error`, loading spinners and the rest of the rendering are display detail.
- Cart.jsx lines 51 and 66, where each row's remove button passes its own index: this is render wiring; the model's removal takes that index.
- MovimientoForm does not look at `res.ok`, so an HTTP error reply that parses as JSON is reported as success; the model follows the code here.
- ActiveTrips: `calculateEstimate` (meters times the meter price, printed with `toFixed(0)`, line 182-183) is display only and is not modelled; the driver name is kept optional because the back end never sends one.
- Personnel: group/employee creation and deletion, the history modal and the stock-withdrawal request are plain fetch wrappers and are not modelled.
- StockPage: the fetch error branches other than "not a list" are not modelled.
- Endpoints outside the ledger core (categories, transactions CRUD, calendar, history, the accounting report) are not modelled, except where a modelled endpoint writes to the same tables.
- LatencyMonitor.StatusOf and KeyVisualizer.DisplayKey have no `ensures` of their own: they only compute, and the lemmas beside them state what they promise.
- Personnel.PayGuardOnDigits: the pay guard is related to a positive value only for meters made of plain digits; other texts go through the `Number` conversion in `PayRefused` with no lemma of their own.
- JsNumbers.ParseFloat and JsNumbers.ToNumber: the literal `Infinity`, signed or not, reads as NaN, because a `JsNumber` has no infinite value. An `<input type="number">` never holds that text (the browser turns it into ""). A stored configuration value of "Infinity" would be read as NaN, and so as 0.
- TripStart.ChangeMaterial: a quantity reading `Infinity` is stored as NaN; the quantity field cannot hold that text.
- ActiveTrips.EntriesPayload: a value reading `Infinity` is sent as NaN; the number fields cannot hold that text.
- ActiveTrips.Board.BulkAll: a typed `Infinity` is given to every assignment as NaN; the number field cannot hold that text.
- ActiveTrips.Board.BulkSplit: a typed `Infinity` is split as NaN; the number field cannot hold that text.
- Personnel.Sheet.LoadPrice: a stored price of "Infinity" reads as 0 here, where the page reads Infinity.
- Personnel.Sheet.Pay: a meters draft of `Infinity` passes the guard, as on the page, but is sent as NaN where the page sends Infinity; the number field cannot hold that text.
- Personnel.Sheet.RecordAdvance: an amount of `Infinity` is refused here, where the page would send it; the number field cannot hold that text.
- StockPage.AddRequest: a cost or quantity of `Infinity` is refused here, where the page would send it; the number fields cannot hold that text.
- StockPage.ProfitPerUnit: a price of `Infinity` is NaN here; the number field cannot hold that text.
- NovaLedger.Ledger.constructor and NexusStore.Store.constructor only take the starting tables as parameters and have no row.

## Findings

| source | as written | input that shows it | evidently intended | confidence | as-written member | corrected member |
|---|---|---|---|---|---|---|
| public/NovaManager/backend/main.py:140 | the dashboard selects every transaction dated on or after the first of the current month, with no upper bound, and buckets each one by its day of the month | on 10 February 2026, a sale dated 31 March 2026: the chart has no day 31, so the lookup fails and the endpoint answers 500 (a later-month sale on a day that exists is counted into this month instead) | only this month's transactions, so the totals and the chart cover the current month and never fail | not executed | NovaReports.FutureDayBreaksDashboard | NovaReports.DashboardStats |
| public/NovaManager/frontend/src/components/ActiveTrips.jsx:409 | the status buttons and the "finished today" counter look for 'COMPLETED', while the back end closes trips as "CLOSED" (main.py line 788) | any list of trips sent by the back end: the 'COMPLETED' button shows nothing, and the counter is 0 | the closed status, so the buttons split the trips and the counters add up | not executed | ActiveTrips.CompletedFilterIsEmpty | ActiveTrips.StatusButtonsPartition |
| public/NovaManager/frontend/src/components/ActiveTrips.jsx:70 | completedToday counts trips whose status is 'COMPLETED' | any list of trips sent by the back end: the counter shows 0 | the trips closed today | not executed | ActiveTrips.CompletedTodayIsZero | ActiveTrips.KpiAddsUp |
| public/NovaManager/frontend/src/components/Personal.jsx:351 | the mobile card prices a meter at a fixed 100000 | a configured meter price of 5000 and a draft of 1 meter: the desktop row shows 5000 and the mobile card 100000 | the configured meter price, as the desktop table uses and the payroll endpoint pays | not executed | Personnel.MobileDisagrees | Personnel.MobilePreview |
| public/NovaManager/frontend/src/components/Attendance.jsx:143-144 | presentCount counts every true flag in the attendance object, including flags of employees no longer loaded, and absentCount subtracts it from the loaded employees | one loaded employee (id 1) and stored records marking ids 7 and 8 present: absent shows -1 | present and absent counted over the loaded employees' cards, so they add up to the list | not executed | AttendanceView.AbsentAsWrittenGoesNegative | AttendanceView.AbsentCount |
