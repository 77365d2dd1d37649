# SGC inventory core, modelled in Dafny

SGC is a small inventory application. Each item has a stock amount in its
own unit, and stock movements ("transactions", order type `entrada` for
inflow and `saida` for outflow) are recorded against items. A statistics
page shows recent movements, a monthly spending card and charts. A
chatbot routes questions through a graph of language-model agents, which
reach the database through three SQL tools.

This project models the logic inside those pieces and proves its
properties:

- **`UnitConverter`** (`unit_converter.dfy`): the stock-unit / price-unit
  conversion table, an item's total value and the conversion of a price
  between units. `Decimal` is exact `real` arithmetic.
- **`TransactionRepository`** (`transaction_repository.dfy`):
  - the transaction table as a class `TransactionStore`, holding a map
    from id to record, with `save`, `find_by_id`, `find_by_item_id`,
    `exists_by_id` and `delete_by_id`;
  - the period summary as a loop over the query's rows, proved equal to a
    specification function and related to an independent "filter, then
    add up" description;
  - the post-processing of the consumption-rate query;
  - the ordering and limit of the most-transacted query. The SQL
    `GROUP BY`, `ORDER BY` and `LIMIT` are specifications over sequences.
- **`TransactionController`** (`transaction_controller.dfy`): the ordered
  request guards. Also `create`, `find_by_id`, `update` and `delete_by_id`
  over a `TransactionStore`, where a raised `HTTPException` is an `Err`
  response.
- **`SqlTools`** (`sql_tools.dfy`):
  - the statement guards of `sql_db_query` and `sql_db_write`;
  - the row-to-mapping loop and the empty-result message of
    `sql_db_query`;
  - the parsing of the table list and the schema text of `sql_db_schema`,
    built line by line in loops.

  The database's answers (rows, row count, catalog, raised error) are
  parameters.
- **`AgentGraph`** (`agent_graph.dfy`): the node set, the entry point and
  the edge table of the agent graph as a transition function on the
  `next_agent` label, with the runs it allows.
- **`TransactionsList`**, **`MonthlyExpensesCard`**, **`StatisticsChart`**
  (`transactions_list.dfy`, `monthly_expenses_card.dfy`,
  `statistics_chart.dfy`): the three React components as functions from
  props to a description of what is shown. The clock and date parsing are
  parameters.
- `Strings` and `Wrappers` hold the Python string operations used
  (`lower`, `upper`, `strip`, `split`, `join`, `startswith`) and `Option`.

The pie chart gives cell *i* the colour of `dataKeys[i]` and the primary
colour to every cell past the last data key; the colours do not cycle
(`StatisticsChart.PieCells`, `StatisticsChart.PieColoursDoNotCycle`).

Parameters with a default in the source are `Option`s whose `None` takes
that default: the chart's `type` (`'line'`) and `xAxisKey` (`'date'`), the
list's `limit` (10), the most-transacted query's `limit` (10) and the
consumption query's `days` (30).

## Model

| member | source | states |
|---|---|---|
| UnitConverter.ConversionFactor | backend/utils/unit_converter.py:17-35 | the factor is always one of 1, 12 or 1000, so at least 1 and never a zero divisor |
| UnitConverter.FactorIgnoresCase | backend/utils/unit_converter.py:29 | upper- or lower-casing either unit name does not change the factor |
| UnitConverter.FactorTable | backend/utils/unit_converter.py:4-14 | factor 1000 exactly for gram→kg and millilitre→litre, 12 exactly for unit→dozen, 1 for any pair not listed |
| UnitConverter.ReversedPairFallsBack | backend/utils/unit_converter.py:4-14 | the table is not symmetric: (kg, grama) falls back to 1 while (grama, kg) and (GRAMA, Kg) give 1000 |
| UnitConverter.ItemTotalValue | backend/utils/unit_converter.py:38-52 | the value times the factor is amount times price |
| UnitConverter.UnitPrice | backend/utils/unit_converter.py:55-68 | the converted price times the factor (keyed target unit, price unit) is the original price |
| UnitConverter.SameUnitTotalIsProduct | backend/utils/unit_converter.py:51-52 | units equal up to case give factor 1 and value amount × price |
| UnitConverter.KilogramPriceInGrams | backend/utils/unit_converter.py:67-68 | a per-kg price restated per gram is divided by 1000 |
| UnitConverter.TotalValueIsAmountTimesUnitPrice | backend/utils/unit_converter.py:52-68 | total value equals amount times the price converted to the stock unit |
| UnitConverter.TotalValueLinear | backend/utils/unit_converter.py:52 | the total value is additive and homogeneous in the amount, and 0 for amount 0 |
| TransactionRepository.TransactionStore.Save | backend/repositories/transaction.py:11-19 | a record with a set, non-zero id replaces or adds the entry under that id; any other record is stored under a fresh id not in use; the rest of the table is unchanged |
| TransactionRepository.TransactionStore.FindById | backend/repositories/transaction.py:21-24 | a record is found exactly when the id is stored, and it carries that id |
| TransactionRepository.TransactionStore.ExistsById | backend/repositories/transaction.py:31-34 | true exactly when find_by_id finds a record |
| TransactionRepository.TransactionStore.FindByItemId | backend/repositories/transaction.py:26-29 | a stored record is returned exactly when its item id matches, and only stored records are returned |
| TransactionRepository.TransactionStore.DeleteById | backend/repositories/transaction.py:36-42 | the table afterwards is the old one without that id; a missing id changes nothing |
| TransactionRepository.SummaryPeriod | backend/repositories/transaction.py:51-54 | a missing end is today, a missing start is 30 days before today, given bounds are kept |
| TransactionRepository.InPeriod | backend/repositories/transaction.py:56-61 | the corrected end-inclusive filter (see ## Findings): the record's day lies in the period, both ends included |
| TransactionRepository.RowsInPeriod | backend/repositories/transaction.py:56-61 | the corrected end-inclusive filter (see ## Findings): keeps exactly the records whose day lies in the period, both ends included |
| TransactionRepository.InPeriodAsWritten | backend/repositories/transaction.py:58-59 | the filter as written, timestamp against the bounds' midnights: on the end day only a record created at exactly 00:00 passes |
| TransactionRepository.InPeriodAsWrittenOnText | backend/repositories/transaction.py:58-59 | the filter as written under SQLite's text comparison: no record of the end day passes |
| TransactionRepository.RowsInPeriodAsWritten | backend/repositories/transaction.py:56-61 | keeps exactly the records that pass the filter as written |
| TransactionRepository.EndDayUnderBothReadings | backend/repositories/transaction.py:58-59 | on the end day the corrected filter keeps every record, the written one only a midnight record, its text reading none; on other days all three agree |
| TransactionRepository.SummaryFrom | backend/repositories/transaction.py:80-99 | the balance is entries minus exits, for amounts and for values |
| TransactionRepository.Classify | backend/repositories/transaction.py:71-75 | the order type lower-cased decides: 'entrada' is an entry, 'saida' an exit, anything else neither (ClassifyExamples) |
| TransactionRepository.TallyOf | backend/repositories/transaction.py:63-78 | what the loop has accumulated after a prefix of the rows; TallyIsTotalsOfSelection relates it to the filtered totals |
| TransactionRepository.SummaryOf | backend/repositories/transaction.py:44-99 | the summary of the records passing the corrected end-inclusive filter (see ## Findings) |
| TransactionRepository.SummaryOfAsWritten | backend/repositories/transaction.py:44-99 | the summary with the filter as written; EndDayDroppedAsWritten shows a record it misses |
| TransactionRepository.FindTransactionSummaryByPeriod | backend/repositories/transaction.py:44-99 | with the corrected end-inclusive filter (see ## Findings), the loop's result is the summary of the records in the period, with the balance of entries minus exits |
| TransactionRepository.TallyIsTotalsOfSelection | backend/repositories/transaction.py:70-78 | the loop's entry totals are count and sums of the records whose lower-cased order type is 'entrada', and likewise for 'saida' |
| TransactionRepository.SelectionsBounded | backend/repositories/transaction.py:70-78 | every record is an entry, an exit or neither, exactly one of them |
| TransactionRepository.SummaryCountsBounded | backend/repositories/transaction.py:70-78 | count of entries plus count of exits is at most the number of records in the period |
| TransactionRepository.InsertRecord | backend/repositories/transaction.py:70-78 | one more entry adds one to the count, its amount, and amount × price (0 without a price); other order types change nothing |
| TransactionRepository.TotalsOfAppend | backend/repositories/transaction.py:63-78 | the totals of two runs of records add up |
| TransactionRepository.ClassifyExamples | backend/repositories/transaction.py:71-75 | 'Entrada' and 'SAIDA' are classified, the accented 'saída' and 'compra' are neither |
| TransactionRepository.EndDayDroppedAsWritten | backend/repositories/transaction.py:56-61 | with the filter as written a record created today at 01:00 is missing from the default summary; the corrected filter counts it |
| TransactionRepository.PeriodFiltersAgreeBeforeEndDay | backend/repositories/transaction.py:58-59 | the written and the corrected filter differ only on the end day |
| TransactionRepository.TruncateToInt | backend/repositories/transaction.py:232 | Python `int()` truncates toward zero, for both signs |
| TransactionRepository.ConsumptionOf | backend/repositories/transaction.py:214-219 | exactly the records of the item with order type 'saida' created on or after the start day |
| TransactionRepository.ConsumptionGroups | backend/repositories/transaction.py:208-222 | no more groups than items; each comes from an item with at least one such exit and carries its id, name, stock and the sum of those exits' amounts |
| TransactionRepository.ConsumptionGroupsComplete | backend/repositories/transaction.py:208-222 | every item with at least one such exit has a group, carrying that sum |
| TransactionRepository.ConsumptionGroupsDistinct | backend/repositories/transaction.py:208-222 | when item ids are distinct (the primary key), no two groups share an item |
| TransactionRepository.ConsumptionRowOf | backend/repositories/transaction.py:224-238 | daily average × days is the total consumed; days until stockout is present exactly when something was consumed, and then is the truncated stock / average |
| TransactionRepository.ConsumptionRates | backend/repositories/transaction.py:200-238 | one row per group in order, over `days` or the default 30; the division by zero for days 0 happens exactly when some group exists |
| TransactionRepository.DefaultConsumptionWindow | backend/repositories/transaction.py:203 | without `days` the window is 30 days and the division never fails |
| TransactionRepository.ActivityOf | backend/repositories/transaction.py:118-119 | exactly the item's records, restricted to the order type when a non-empty one is given |
| TransactionRepository.Activities | backend/repositories/transaction.py:108-122 | every row belongs to an item, with its id and name, and has a positive count equal to that item's number of matching records, with their summed amount and value |
| TransactionRepository.ActivitiesComplete | backend/repositories/transaction.py:108-122 | every item with at least one matching record has a row, with that count |
| TransactionRepository.ActivitiesDistinct | backend/repositories/transaction.py:108-122 | when item ids are distinct (the primary key), no two rows share an item |
| TransactionRepository.InsertByCount | backend/repositories/transaction.py:123-124 | inserting into a count-descending list keeps it descending and adds exactly that row |
| TransactionRepository.SortByCount | backend/repositories/transaction.py:123-124 | the result is ordered by count, highest first, and is a permutation of the input |
| TransactionRepository.Limit | backend/repositories/transaction.py:125 | a prefix of the rows of length min(limit, n); a negative limit keeps everything |
| TransactionRepository.PrefixOfSortedIsTop | backend/repositories/transaction.py:121-125 | in a count-descending list, every row of a prefix has a count at least that of any row after it |
| TransactionRepository.MostTransactedItems | backend/repositories/transaction.py:101-136 | the grouped rows ordered by count and cut at the limit, 10 when none is given; MostTransactedIsTopByCount states what that yields |
| TransactionRepository.MostTransactedIsTopByCount | backend/repositories/transaction.py:101-136 | the result is count-descending; it has exactly min(limit, groups) rows (limit 10 when absent), or every group for a negative limit; it is drawn from the grouped rows; no row left out has a higher count than a row kept |
| TransactionRepository.TopByCount | backend/repositories/transaction.py:123-125 | for any grouped rows, ordering by count and cutting at the limit gives a count-descending selection of them, of exactly min(limit, n) rows or all n for a negative limit, with no left-out row counting more than a kept one |
| TransactionController.DefaultValidators | backend/controllers/transaction.py:60-70 | no error exactly when price is absent or non-negative, both fields non-empty, amount positive and item known; each of the four errors (status 400) exactly when its guard is the first to fail |
| TransactionController.ZeroOrMissingPriceNeverRejected | backend/controllers/transaction.py:61 | a price of 0 or none is never the reason for a refusal |
| TransactionController.WhitespaceFieldsPass | backend/controllers/transaction.py:63-66 | fields made only of white space, which strip to nothing, still pass: only the empty string counts as empty |
| TransactionController.AcceptedRequestIsSound | backend/controllers/transaction.py:67-70 | an accepted request has a positive amount and an existing item |
| TransactionController.FirstGuardWins | backend/controllers/transaction.py:61-62 | a request failing every guard is refused for its price |
| TransactionController.Create | backend/controllers/transaction.py:12-15 | an invalid request is refused with its guard's error and nothing stored; a valid one is stored as one new record under a fresh id, built from the request, and returned |
| TransactionController.FindById | backend/controllers/transaction.py:22-29 | 404 exactly when the id is not stored, otherwise the stored record |
| TransactionController.DeleteById | backend/controllers/transaction.py:36-46 | 404 and no change for a missing id, otherwise status 204 with the success message and the id, and only that record removed |
| TransactionController.Update | backend/controllers/transaction.py:48-57 | validation comes first (400 even for a missing id), then 404 for a missing id, otherwise the request's fields under the same id |
| SqlTools.IsReadStatement | backend/services/graph/tools/sql.py:62-63 | the read guard: the stripped, upper-cased statement starts with SELECT; properties in the Guards lemmas below |
| SqlTools.IsWriteStatement | backend/services/graph/tools/sql.py:100-103 | the write guard: it starts with INSERT, UPDATE or DELETE (IsWriteStatementCases) |
| SqlTools.GuardsAreDisjoint | backend/services/graph/tools/sql.py:63-103 | no statement is accepted by both tools |
| SqlTools.IsWriteStatementCases | backend/services/graph/tools/sql.py:100-103 | the write guard holds exactly for INSERT, UPDATE or DELETE at the start of the normalised text |
| SqlTools.GuardLooksAtLeadingText | backend/services/graph/tools/sql.py:62-63 | the guards depend only on the text after leading white space, upper-cased; trailing white space never matters |
| SqlTools.GuardsIgnorePadding | backend/services/graph/tools/sql.py:62-100 | white space around the statement changes neither guard |
| SqlTools.GuardsIgnoreCase | backend/services/graph/tools/sql.py:62-100 | upper-casing the statement changes neither guard |
| SqlTools.GuardsLookOnlyAtPrefix | backend/services/graph/tools/sql.py:63-103 | an accepted statement stays accepted whatever is appended |
| SqlTools.SelectExample | backend/services/graph/tools/sql.py:62-63 | a lower-case, indented select is accepted |
| SqlTools.WithQueryRefused | backend/services/graph/tools/sql.py:63-64 | a read-only statement not starting with SELECT is refused |
| SqlTools.DeleteExample | backend/services/graph/tools/sql.py:100-103 | a lower-case delete is accepted by the write tool |
| SqlTools.DropRefused | backend/services/graph/tools/sql.py:103-104 | a DROP statement is refused by the write tool |
| SqlTools.ZipDict | backend/services/graph/tools/sql.py:73 | `dict(zip(columns, row))`; ZipDictSpec states its keys and values |
| SqlTools.ZipDictSpec | backend/services/graph/tools/sql.py:73 | a row's mapping has exactly the paired column names as keys, each mapped to the value at its last position |
| SqlTools.CollectRows | backend/services/graph/tools/sql.py:69-73 | one mapping per result row, in order, each the zip of columns and row |
| SqlTools.SqlDbQuery | backend/services/graph/tools/sql.py:51-86 | anything but a SELECT gets the fixed refusal; an error gets the prefixed error text; no rows gets the fixed message; otherwise one mapping per row |
| SqlTools.AllowedCommandsText | backend/services/graph/tools/sql.py:101-104 | the refusal lists "INSERT, UPDATE, DELETE" |
| SqlTools.SqlDbWrite | backend/services/graph/tools/sql.py:89-123 | refusal unless a write statement; then the prefixed error text or the success message with the row count |
| SqlTools.TableList | backend/services/graph/tools/sql.py:18 | one name per comma-separated piece, each the stripped piece |
| SqlTools.TableListRoundTrip | backend/services/graph/tools/sql.py:18 | names without commas or surrounding white space, joined by commas, are read back unchanged |
| SqlTools.TableListNames | backend/services/graph/tools/sql.py:18 | every name read is stripped and has no comma |
| SqlTools.FirstMissing | backend/services/graph/tools/sql.py:21-48 | no table is missing exactly when all are known; otherwise the first unknown name, all before it known |
| SqlTools.AppendColumnLines | backend/services/graph/tools/sql.py:26-32 | the column loop appends the column lines in order |
| SqlTools.AppendForeignKeyLines | backend/services/graph/tools/sql.py:37-41 | the foreign-key loop appends the key lines in order |
| SqlTools.ColumnLine | backend/services/graph/tools/sql.py:29-32 | one column's line; ColumnLineEnding and the examples below state its shape |
| SqlTools.ForeignKeyLine | backend/services/graph/tools/sql.py:38-41 | one foreign key's line, the joined column lists around the arrow |
| SqlTools.DescribeTable | backend/services/graph/tools/sql.py:22-43 | the block of one table: header, column lines, and the foreign-key section only when there are keys |
| SqlTools.SchemaText | backend/services/graph/tools/sql.py:16-48 | the tool's reply as a function of the table list and the catalog; SqlDbSchema's loop is proved equal to it |
| SqlTools.SqlDbSchema | backend/services/graph/tools/sql.py:6-48 | the blocks of all tables joined by newlines, or the error naming the first unknown table |
| SqlTools.PrimaryKeyLineExample | backend/services/graph/tools/sql.py:29-32 | a primary-key column reads "NOT NULLPRIMARY KEY", with no separator |
| SqlTools.DefaultLineExamples | backend/services/graph/tools/sql.py:29-30 | an empty default is not shown |
| SqlTools.DefaultShownExample | backend/services/graph/tools/sql.py:29-30 | a non-empty default is shown after the nullability |
| SqlTools.ColumnLineEnding | backend/services/graph/tools/sql.py:29-32 | a key column's line ends in PRIMARY KEY; otherwise, without default, in NULL or NOT NULL; the default shows exactly when it is present and non-empty |
| AgentGraph.Step | backend/services/graph/graph.py:20-54 | the transition on `next_agent`; StepDescends and EdgeTable state its edges |
| AgentGraph.StepDescends | backend/services/graph/graph.py:22-54 | every edge leads to a node of strictly lower rank, within the registered nodes or END, and never back to the entry |
| AgentGraph.Walk | backend/services/graph/graph.py:28-54 | a run follows the edges label by label and is never longer than the node's rank allows |
| AgentGraph.EdgeTable | backend/services/graph/graph.py:30-54 | the orchestrator's four labels, the revisor's two, and the unconditional edges structurer→sql, sql→revisor, web→END, trivial→END |
| AgentGraph.RevisorOnlyAfterSql | backend/services/graph/graph.py:41-42 | only sql leads to revisor; only the orchestrator, on SAVE_RECIPE, to structurer |
| AgentGraph.WalkIsAcyclic | backend/services/graph/graph.py:22-54 | along a run the rank strictly falls, so no node appears twice |
| AgentGraph.AcceptedRunEnds | backend/services/graph/graph.py:28-54 | a run whose labels are all listed ends at END within at most five steps |
| AgentGraph.EveryNodeCanFinish | backend/services/graph/graph.py:30-54 | from every node some labels, no more than its rank, reach END |
| AgentGraph.LongestRun | backend/services/graph/graph.py:37-53 | orchestrator→structurer→sql→revisor→web→END is a run of five steps |
| AgentGraph.UnknownLabelStops | backend/services/graph/graph.py:30-39 | a label the orchestrator does not list stops the run |
| TransactionsList.Slice | frontend/src/features/statistics/components/TransactionsList/TransactionsList.jsx:19 | the list kept is a prefix of the transactions |
| TransactionsList.SliceLength | frontend/src/features/statistics/components/TransactionsList/TransactionsList.jsx:19 | with limit ≥ 0 the first min(limit, n) transactions in order; a negative limit drops that many from the end |
| TransactionsList.FormatDate | frontend/src/features/statistics/components/TransactionsList/TransactionsList.jsx:21-39 | the relative age of a record; FormatDateBuckets states its ranges |
| TransactionsList.FormatDateBuckets | frontend/src/features/statistics/components/TransactionsList/TransactionsList.jsx:21-39 | each label is chosen exactly on its range of elapsed time, and the count shown is the whole number of units elapsed |
| TransactionsList.DivBounds | frontend/src/features/statistics/components/TransactionsList/TransactionsList.jsx:25-27 | the floor division used brackets the elapsed time |
| TransactionsList.FutureIsJustNow | frontend/src/features/statistics/components/TransactionsList/TransactionsList.jsx:24-29 | a future timestamp shows "Agora mesmo" |
| TransactionsList.FormatDateBoundaries | frontend/src/features/statistics/components/TransactionsList/TransactionsList.jsx:29-38 | 59 s is "just now", 60 s is 1 min, 3600 s is 1 h, a day is 1 d, a week shows the date |
| TransactionsList.RowOf | frontend/src/features/statistics/components/TransactionsList/TransactionsList.jsx:84-138 | one row: indicators, date label, quantity and value; ClickOnlyWithCallback, TypeIndicatorsAgree and Fallbacks state them |
| TransactionsList.Render | frontend/src/features/statistics/components/TransactionsList/TransactionsList.jsx:13-143 | the component: loading, empty or one row per kept transaction; RenderStates states it |
| TransactionsList.RenderStates | frontend/src/features/statistics/components/TransactionsList/TransactionsList.jsx:53-83 | loading wins; otherwise empty exactly when nothing survives the limit; otherwise one row per kept transaction, in order |
| TransactionsList.DefaultShowsTen | frontend/src/features/statistics/components/TransactionsList/TransactionsList.jsx:15-19 | without a limit the list shows the first ten transactions, or all when there are fewer |
| TransactionsList.ClickOnlyWithCallback | frontend/src/features/statistics/components/TransactionsList/TransactionsList.jsx:86-136 | clickable, arrow and the callback receiving the row's transaction exactly when a callback is given |
| TransactionsList.TypeIndicatorsAgree | frontend/src/features/statistics/components/TransactionsList/TransactionsList.jsx:41-51 | class, label, icon and sign all mean inflow exactly for 'entrada', outflow otherwise |
| TransactionsList.CapitalisedEntradaIsOutflow | frontend/src/features/statistics/components/TransactionsList/TransactionsList.jsx:41-51 | 'Entrada' is shown as an outflow |
| TransactionsList.Fallbacks | frontend/src/features/statistics/components/TransactionsList/TransactionsList.jsx:113-131 | date falls back to created_at when missing or empty; value is total_value when present, else price × quantity with missing factors 0 |
| TransactionsList.RowDate | frontend/src/features/statistics/components/TransactionsList/TransactionsList.jsx:113 | the row's date label comes from the chosen field, and is invalid when there is none |
| MonthlyExpensesCard.CurrentMonth | frontend/src/features/statistics/components/MonthlyExpensesCard/MonthlyExpensesCard.jsx:17 | present exactly when there is data, then the last element |
| MonthlyExpensesCard.PreviousMonth | frontend/src/features/statistics/components/MonthlyExpensesCard/MonthlyExpensesCard.jsx:18 | present exactly when there are two or more, then the second to last |
| MonthlyExpensesCard.GetMonthName | frontend/src/features/statistics/components/MonthlyExpensesCard/MonthlyExpensesCard.jsx:102-108 | the short month name, or the number itself; MonthNameRoundTrip states it |
| MonthlyExpensesCard.Render | frontend/src/features/statistics/components/MonthlyExpensesCard/MonthlyExpensesCard.jsx:9-100 | the card: loading, empty, or the last month with its comparison; RenderStates and the Comparison lemmas state it |
| MonthlyExpensesCard.MonthNameRoundTrip | frontend/src/features/statistics/components/MonthlyExpensesCard/MonthlyExpensesCard.jsx:102-108 | months 1..12 get a name that reads back as the same month; other numbers are returned as they are |
| MonthlyExpensesCard.MonthNameExamples | frontend/src/features/statistics/components/MonthlyExpensesCard/MonthlyExpensesCard.jsx:103-107 | 1 is Jan, 12 is Dez, 0 and 13 stay numbers |
| MonthlyExpensesCard.RenderStates | frontend/src/features/statistics/components/MonthlyExpensesCard/MonthlyExpensesCard.jsx:20-53 | loading wins; otherwise empty exactly when there is no month; otherwise the last month's name and count |
| MonthlyExpensesCard.ComparisonNeedsPreviousMonth | frontend/src/features/statistics/components/MonthlyExpensesCard/MonthlyExpensesCard.jsx:68-96 | comparison and previous detail exactly when a previous month exists, describing it |
| MonthlyExpensesCard.ComparisonMeaning | frontend/src/features/statistics/components/MonthlyExpensesCard/MonthlyExpensesCard.jsx:49-77 | an increase exactly when the difference is positive; the percentage is the magnitude, never negative, 0 when missing |
| MonthlyExpensesCard.ShownValue | frontend/src/features/statistics/components/MonthlyExpensesCard/MonthlyExpensesCard.jsx:48-65 | the value is the month's total, 0 when missing |
| StatisticsChart.Render | frontend/src/features/statistics/components/StatisticsChart/StatisticsChart.jsx:34-226 | the component, with `type` 'line' and `xAxisKey` 'date' by default; RenderStates and DefaultChart state it |
| StatisticsChart.RenderBody | frontend/src/features/statistics/components/StatisticsChart/StatisticsChart.jsx:105-216 | the switch on the chart type; SeriesPerDataKey, PieCells and UnsupportedType state its cases |
| StatisticsChart.DefaultChart | frontend/src/features/statistics/components/StatisticsChart/StatisticsChart.jsx:36-41 | without `type` and `xAxisKey` the data is a line chart over `date`; given ones are used as they are |
| StatisticsChart.RenderStates | frontend/src/features/statistics/components/StatisticsChart/StatisticsChart.jsx:43-68 | loading, then empty (null or no data), then chart; the chart's heading exactly when the title is non-empty |
| StatisticsChart.SeriesPerDataKey | frontend/src/features/statistics/components/StatisticsChart/StatisticsChart.jsx:126-185 | one series per data key in order, with its colour or the primary one and its name or the key; custom tooltip only for bars |
| StatisticsChart.PieCells | frontend/src/features/statistics/components/StatisticsChart/StatisticsChart.jsx:189-211 | one cell per point; cells past the data keys are primary; value key is the first key or 'value' |
| StatisticsChart.PieCellColors | frontend/src/features/statistics/components/StatisticsChart/StatisticsChart.jsx:202-207 | one colour per point, from the data key at that position or primary; PieCells states it |
| StatisticsChart.PieColoursDoNotCycle | frontend/src/features/statistics/components/StatisticsChart/StatisticsChart.jsx:202-207 | two keys and four points give their two colours then primary twice |
| StatisticsChart.UnsupportedType | frontend/src/features/statistics/components/StatisticsChart/StatisticsChart.jsx:213-214 | any other type shows the fallback message |
| StatisticsChart.FormatQuantity | frontend/src/features/statistics/components/StatisticsChart/StatisticsChart.jsx:79-85 | the tooltip's number format; QuantityBuckets states its ranges |
| StatisticsChart.CustomTooltip | frontend/src/features/statistics/components/StatisticsChart/StatisticsChart.jsx:73-103 | the tooltip content; TooltipShownOnlyWhenActive states when it appears |
| StatisticsChart.QuantityBuckets | frontend/src/features/statistics/components/StatisticsChart/StatisticsChart.jsx:79-85 | kg exactly from 1000 on (in thousands), one decimal exactly from 10 on, two below |
| StatisticsChart.QuantityExamples | frontend/src/features/statistics/components/StatisticsChart/StatisticsChart.jsx:79-85 | 1500 → 1.5 kg, 15 → 15.0 un, 5 → 5.00 un, 999.9 → 999.9 un |
| StatisticsChart.TooltipShownOnlyWhenActive | frontend/src/features/statistics/components/StatisticsChart/StatisticsChart.jsx:73-102 | content exactly when active with a non-empty payload, then the first entry's value formatted |

## Left out

- Database sessions, `commit`, `rollback`, `close` and query execution: the table is an in-memory map, query results are sequences, and what the database returns to the SQL tools is a parameter.
- `find_all`, `find_daily_transactions` (with its `days = 30` default), `find_average_transaction_value_by_item` and the controller's `find_all` and `find_by_item_id`: plain listing or reporting queries outside the modelled core.
- TransactionRepository.TransactionStore.Save: the autoincrement id is modelled as a counter above every id held; the database may choose other fresh ids.
- `float()` conversions of results and `Decimal` context rounding: values are exact reals.
- Strings.Upper and Strings.Lower: only ASCII (and Latin-1 capitals for `lower`) are mapped. Python also maps, for instance, 'ſ' to 'S' and 'ı' to 'I' in `upper`, so a statement beginning "ſelect" is accepted by the source but not by the model.
- SqlTools.SqlDbQuery: the JSON rendering of the rows (`json.dumps`) is not modelled; the reply carries the row mappings. A failing commit after the query is not distinguished from a failing query.
- SqlTools.SqlDbSchema: the text of the inspector's missing-table error is taken to be the table name; other inspector failures are not modelled.
- The time parts of the summary period are not kept, as the filter compares dates only; the period's `strftime` text is not modelled.
- TransactionRepository.InPeriodAsWritten: which reading of the written filter applies depends on the database. `InPeriodAsWritten` is the reading where the date stands for its midnight; `InPeriodAsWrittenOnText` is SQLite's text comparison, used by the test database (backend/tests/bdd/conftest.py:51). The production database's configuration is not part of this model.
- Defaults not taken as `Option`s: the chart's `height` (300) only sizes the drawing. An absent list prop (`data`, `dataKeys`, `transactions`, `monthlyData`) is passed as the empty list, and an absent `loading` as false, which is what the defaults give; a `null` chart `data` (`None`) shows the same empty state as an absent one.
- AgentGraph: the language-model nodes themselves, the sqlite checkpointer and the PNG drawing of the graph; an unlisted label, on which the graph library raises, just stops the run.
- TransactionsList: `toFixed`, `toLocaleDateString` and `new Date` parsing are abstract (parsing is a parameter). A `created_at` of `null`, which JavaScript reads as the epoch, is not told apart from a missing one.
- NaN values in the frontend components (an unparseable number makes every comparison false) are not modelled, except for invalid dates.
- React lifecycle (`useEffect` and `onLoad`), JSX markup, CSS, icons and the chart library's drawing.
- The chatbot API client, the web routes, startup and table creation.

## Findings

| source | as written | input that shows it | evidently intended | confidence | as-written member | corrected member |
|---|---|---|---|---|---|---|
| backend/repositories/transaction.py:58-59 | the `create_at` timestamp is compared with `end_date.date()`, i.e. the end day's midnight | default period (end = now), a transaction created today at 01:00: it is not counted | the end day is included in full, as the docstring's "por período" and the 30-day default suggest | medium, not executed (under the midnight reading a record at exactly 00:00 still passes; under SQLite's text comparison, used by the test database at backend/tests/bdd/conftest.py:51, no record of the end day passes, see TransactionRepository.EndDayUnderBothReadings) | TransactionRepository.EndDayDroppedAsWritten | TransactionRepository.FindTransactionSummaryByPeriod |
