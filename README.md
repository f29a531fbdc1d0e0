# Stok Plus Gaji — a Dafny model of the dashboard's list computations

Stok Plus Gaji is an inventory and payroll dashboard for a small gas-cylinder
workshop. Its pages load rows from a hosted database:
- items (`barang`);
- stock movements (`transaksi`);
- employees (`karyawan`);
- production records (`produksi`).

Once loaded, every page computes figures from those rows in memory. This project
models those computations over sequences of records, with unbounded integers for
rupiah amounts and unit counts. It proves what each page promises about them.

| module | file | what it models |
|---|---|---|
| `Wrappers` | wrappers.dfy | `Option`, `Result`, and the outcome of a database query (`Fetched`) |
| `Seqs` | seqs.dfy | `filter`, `map` and `reduce`-to-a-sum, with the list facts the pages rely on |
| `Text` | text.dfy | ASCII lower-casing and `includes`, `charAt(0).toUpperCase() + slice(1)`, `slice(0, n)`, and `String(n)` for integers |
| `Domain` | domain.dfy | the three database enumerations: division, item kind, transaction kind |
| `ExportHtml` | export_html.dfy | the HTML report built by `exportToPDF`, its file name, and readers proving the table's content |
| `Inventory` | inventory.dfy | an item row and the low-stock, out-of-stock, value and kind rules shared by three pages |
| `Production` | production.dfy | the monthly production and payroll recap; a class with a dictionary filled by a loop, proved against a specification function |
| `Stock` | stock.dfy | search and kind filtering, the three-way stock status, the summary counts, the stock report |
| `Assets` | assets.dfy | per-item valuation, the summary split by kind, the percentage guard, and the page state |
| `StockOverview` | stock_overview.dfy | the dashboard cards, the low-stock alert and its badges |
| `Transactions` | transactions.dfy | search and kind filtering of stock movements, per-kind totals, display rules, the report |
| `TransactionForm` | transaction_form.dfy | the guards of a new stock movement, the inserted record, and the dialog state |
| `Employees` | employees.dfy | division counts, badge colors, icons and labels, the short id, the employee report |

Locale formatting is passed in as function parameters:
- currency (`Intl.NumberFormat`);
- dates (`toLocaleDateString`);
- numbers (`toLocaleString`).

The current time is also a parameter:
- `now` for the record timestamp;
- `exportedAt` for the report's date line;
- `iso` for the file name.

## Model

| member | source | states |
|---|---|---|
| `Production.SalaryTableCoversDivisions` | src/components/production/ProductionRecap.tsx:32-36 | the salary table has an entry exactly for the three divisions; a higher base salary goes with a higher bonus per unit |
| `Production.RecapBuilder.constructor` | src/components/production/ProductionRecap.tsx:69 | the grouping dictionary starts empty |
| `Production.RecapBuilder.AddRow` | src/components/production/ProductionRecap.tsx:71-95 | an unseen employee gets a new entry: base salary of their division, no units, no bonus, total pay equal to the base; the row's units are then added and a line is appended; the id joins the key order only when its entry is created, so keys stay in first-appearance order; fails exactly when a new employee's division has no salary configuration and then changes nothing |
| `Production.RecapBuilder.ApplyBonuses` | src/components/production/ProductionRecap.tsx:98-102 | every entry, and only its bonus and total pay, is updated: bonus = units × bonus per unit, total = base + bonus |
| `Production.RecapBuilder.Values` | src/components/production/ProductionRecap.tsx:104 | lists every entry of the dictionary exactly once (as many values as keys), following the key order |
| `Production.FetchProductionData` | src/components/production/ProductionRecap.tsx:69-104 | the grouping and bonus passes produce exactly the recap specified by `Recap`, failure included; so the page's list has one entry per employee in the order of each employee's first row |
| `Production.RecapFailsIff` | src/components/production/ProductionRecap.tsx:73-82 | the recap fails exactly when some employee's first row names a division without a salary configuration |
| `Production.RecapOneEntryPerEmployee` | src/components/production/ProductionRecap.tsx:69-87 | one entry per distinct employee id among the rows, no id twice, and an entry exists for an id exactly when some row has it |
| `Production.RecapEntry` | src/components/production/ProductionRecap.tsx:73-102 | an entry's units are the sum over the employee's rows; its lines are those rows in input order; name, division and base come from the first row; bonus = units × bonus per unit; total = base + bonus |
| `Production.OverallProductionIsRowTotal` | src/components/production/ProductionRecap.tsx:131 | the overall production figure equals the sum of all row amounts |
| `Production.OverallPay` | src/components/production/ProductionRecap.tsx:130 | the overall pay is the sum of base salaries plus the sum of bonuses; with no negative amounts it is at least 3,000,000 per employee |
| `Production.Details` | src/components/production/ProductionRecap.tsx:261-268 | a card lists the first min(n, 5) lines; a "+k lainnya" note appears exactly when n > 5, and shown lines plus k is n |
| `Production.ItemCountCountsRows` | src/components/production/ProductionRecap.tsx:235 | "item berbeda" is the employee's row count, not their distinct items: two rows of the same item give 2 |
| `Inventory.LowStockExact` | src/components/dashboard/StockOverview.tsx:59 | the low-stock list keeps input order and holds every low item as often as the input does, and nothing else |
| `Inventory.OutOfStockExact` | src/pages/Stock.tsx:163 | the out-of-stock list keeps input order and holds every item with no stock as often as the input does, and nothing else |
| `Inventory.KindCountsAddUp` | src/components/dashboard/StockOverview.tsx:111-112 | the raw-material count plus the finished-goods count is the number of items |
| `Inventory.SampleStockHasTwoLowItems` | src/components/demo/DataSeeder.tsx:12-55 | of the six seeded items, "Tabung Gas 12kg" and "Cat Primer" are the low-stock ones |
| `Stock.FilterData` | src/pages/Stock.tsx:76-100 | the search step then the kind step yield exactly `Visible`: a subsequence of the input, each shown item with its input multiplicity, and the input itself for an empty search with 'all' |
| `Stock.VisibleFacts` | src/pages/Stock.tsx:76-100 | filtering by the search and then by the kind equals `Visible`; `Visible` keeps order, keeps exactly the shown items with their multiplicity, and drops nothing for an empty search with 'all' |
| `Stock.VisibleItems` | src/pages/Stock.tsx:80-97 | a listed item contains the search term ignoring case; under 'bahan_baku' or 'barang_jadi' it has that kind; under 'low_stock' its stock is at most its minimum |
| `Stock.GetStockStatus` | src/pages/Stock.tsx:102-106 | Habis iff stock is 0; Menipis iff stock is nonzero and at most the minimum; Aman otherwise; color destructive, warning or success matching the status |
| `Stock.GetStockStatusColor` | src/pages/Stock.tsx:108-112 | each of the three class strings is chosen exactly when `getStockStatus` gives the corresponding status |
| `Stock.LowStockCount` | src/pages/Stock.tsx:162 | counts the low-stock items, at most the number of items, and is 0 exactly when no item is at or below its minimum |
| `Stock.OutOfStockCount` | src/pages/Stock.tsx:163 | counts the items with no stock, at most the number of items, and is 0 exactly when every item has stock |
| `Stock.SafeCount` | src/pages/Stock.tsx:250 | the "safe" figure is never negative and equals the number of items above their minimum |
| `Stock.OutOfStockCountAtMostLowStockCount` | src/pages/Stock.tsx:162-163 | with no negative minimum, the out-of-stock count never exceeds the low-stock count |
| `Stock.ExportRow` | src/pages/Stock.tsx:144-152 | the record keys are the report headers in order; the cells hold the name, the kind label, `String(stok)`, `String(stok_minimum)`, the status object itself, the formatted price and the formatted stok × harga |
| `Stock.ExportCells` | src/pages/Stock.tsx:146-151 | in every report row the Status cell reads "[object Object]", and the Stok cell is the number (so "0", not "-") |
| `Assets.ProcessItems` | src/pages/Assets.tsx:71-74 | one valued row per item, in order, with the item kept and `nilai_total` = stok × harga |
| `Assets.KindTotalsAddUp` | src/pages/Assets.tsx:79-85 | the raw-material total plus the finished-goods total equals the total asset value |
| `Assets.SummaryOfItems` | src/pages/Assets.tsx:79-92 | total asset value is the sum of stok × harga; kind totals add up to it; item count is the list length; an empty list gives the all-zero initial summary |
| `Assets.KindTotalAtMostTotal` | src/pages/Assets.tsx:80-85 | with no negative values, each kind's total is between 0 and the overall total |
| `Assets.AssetPercentage` | src/pages/Assets.tsx:111-113 | yields '0' exactly when the total is not positive; otherwise a ratio over the (positive) total, so nothing is divided by zero |
| `Assets.AssetsPage.constructor` | src/pages/Assets.tsx:26-32 | the page starts with no rows and the all-zero summary, which describes them |
| `Assets.AssetsPage.FetchAssetData` | src/pages/Assets.tsx:60-101 | a successful load replaces the rows with the valued rows and the summary with theirs; a failed load changes nothing; the summary keeps describing the rows shown |
| `StockOverview.OverviewAgreesWithOtherPages` | src/components/dashboard/StockOverview.tsx:59-63 | the alert list is exactly the low-stock items in order, its length is the stock page's count, and the value card equals the asset page's total |
| `StockOverview.KindCountsMatchTotal` | src/components/dashboard/StockOverview.tsx:109-112 | the two kind counts under "Total Barang" add up to the item count shown |
| `StockOverview.TotalUnitsBound` | src/components/dashboard/StockOverview.tsx:137 | with no negative stock, the unit total is at least the stock of any item |
| `StockOverview.AlertIffSomeLow` | src/components/dashboard/StockOverview.tsx:160 | the low-stock alert is shown exactly when some item is low on stock |
| `StockOverview.BadgeVariant` | src/components/dashboard/StockOverview.tsx:178 | the badge is destructive exactly when the stock page would say Habis, outline otherwise |
| `Transactions.FilterData` | src/pages/Transactions.tsx:89-106 | the search step then the kind step yield exactly `Visible`: a subsequence, each shown row with its multiplicity, the input for an empty search with 'all' |
| `Transactions.VisibleFacts` | src/pages/Transactions.tsx:89-106 | filtering by the search and then by the kind equals `Visible`; `Visible` keeps order and multiplicities of the shown rows and drops nothing for an empty search with 'all' |
| `Transactions.VisibleRows` | src/pages/Transactions.tsx:93-103 | a listed row has the selected kind; under a search its item name or its note contains the term ignoring case; a row with neither is never listed under a search |
| `Transactions.FourTotalsAddUp` | src/pages/Transactions.tsx:172-175 | the four per-kind totals add up to the amount of every row that has a kind; rows with a null kind are in none |
| `Transactions.TotalIsFilteredAmount` | src/pages/Transactions.tsx:172-175 | each per-kind total is the amount of the rows the kind filter lists |
| `Transactions.TypeLabel` | src/pages/Transactions.tsx:123-136 | the four kinds map to their labels; any other string is returned unchanged |
| `Transactions.LabelsDistinct` | src/pages/Transactions.tsx:123-136 | the four labels are distinct and non-empty; the free text "Barang Masuk" gets the same label as 'masuk' |
| `Transactions.Sign` | src/pages/Transactions.tsx:362 | '+' exactly for 'masuk', '-' for every other kind and for a null kind |
| `Transactions.TransactionValue` | src/pages/Transactions.tsx:365 | a value exists exactly when the joined item does, and it is jumlah × harga |
| `Transactions.ValueText` | src/pages/Transactions.tsx:218 | the formatted jumlah × harga when the item is joined, '-' otherwise |
| `Transactions.ExportRow` | src/pages/Transactions.tsx:213-220 | the record keys are the report headers in order |
| `Transactions.ExportCells` | src/pages/Transactions.tsx:214-220 | a missing item reads 'Barang Tidak Ditemukan'; the kind cell is '-' exactly for a null kind; the amount starts with '+' exactly for inbound rows; value and note fall back to '-' |
| `TransactionForm.FindItem` | src/components/forms/AddTransactionForm.tsx:70 | returns the first item with the id, or nothing exactly when no item has it |
| `TransactionForm.Validate` | src/components/forms/AddTransactionForm.tsx:57-87 | "Field wajib harus diisi" exactly when a required field is empty; "Jumlah harus lebih dari 0" exactly when filled with amount ≤ 0; the stock message exactly when outgoing, the item found and its stock short; otherwise the record with the same item, kind and amount, a null note for an empty one, and the given time |
| `TransactionForm.AcceptedEntries` | src/components/forms/AddTransactionForm.tsx:69-75 | an accepted outgoing entry never exceeds the stock of an item in the list; an inbound entry, or one whose item is not in the list, is accepted whatever the stock |
| `TransactionForm.TransactionDialog.constructor` | src/components/forms/AddTransactionForm.tsx:23-31 | the dialog starts closed, idle, with no items and an empty form |
| `TransactionForm.TransactionDialog.OpenDialog` | src/components/forms/AddTransactionForm.tsx:33-52 | opening loads the item list; on a load error the list is kept |
| `TransactionForm.TransactionDialog.HandleSubmit` | src/components/forms/AddTransactionForm.tsx:54-104 | a rejected entry shows its message and inserts nothing; an accepted one is inserted; success resets the form and closes the dialog, failure keeps both; loading ends false after an insert attempt |
| `Employees.StatsAddUp` | src/pages/Employees.tsx:62-66 | the three division counts add up to the number of employees |
| `Employees.DivisionColor` | src/pages/Employees.tsx:44-51 | any string other than the three divisions gets the gray default (the recap cards use an identical copy) |
| `Employees.DivisionIcon` | src/pages/Employees.tsx:53-60 | any string other than the three divisions gets the person icon |
| `Employees.DivisionLookupsDistinct` | src/pages/Employees.tsx:44-60 | the three divisions get three distinct colors and icons, each distinct from the default |
| `Employees.DivisionLabel` | src/pages/Employees.tsx:71 | same length as the division name, first letter upper-cased, rest unchanged |
| `Employees.DivisionLabels` | src/pages/Employees.tsx:196 | the badge texts are "Tabung", "Asesoris" and "Packing" |
| `Employees.ShortId` | src/pages/Employees.tsx:72 | the first 8 characters of the id, or the whole id when shorter |
| `Employees.ExportRow` | src/pages/Employees.tsx:69-75 | the record keys are the report headers in order |
| `Employees.ExportRows` | src/pages/Employees.tsx:68-75 | one record per employee, in the page's order |
| `Employees.ExportCells` | src/pages/Employees.tsx:69-75 | each row shows the name, the capitalised division, the short id and 'Aktif' |
| `ExportHtml.Render` | src/components/utils/exportToPDF.ts:40 | a falsy value ("", 0, null, undefined) renders as '-'; a string as itself; a number as its decimal form; a plain object as "[object Object]" |
| `ExportHtml.RenderedValues` | src/components/utils/exportToPDF.ts:40 | one rendered value per record entry, in key order |
| `ExportHtml.Table` | src/components/utils/exportToPDF.ts:38-42 | one row of rendered values per record, in order |
| `ExportHtml.CellsRoundTrip` | src/components/utils/exportToPDF.ts:34 | reading the cells back gives the texts that were written, and the text after them, when no text contains '<' |
| `ExportHtml.HeaderRowRoundTrip` | src/components/utils/exportToPDF.ts:34 | the header row holds exactly one `<th>` per header, in order |
| `ExportHtml.BodyRoundTrip` | src/components/utils/exportToPDF.ts:38-42 | the body holds exactly one `<tr>` per record, each with one `<td>` per value in key order |
| `ExportHtml.HeadersAreNotEscaped` | src/components/utils/exportToPDF.ts:34 | a header containing `</th><th>` reads back as two headers: nothing is escaped |
| `ExportHtml.CellsFollowKeyOrder` | src/components/utils/exportToPDF.ts:40 | cells follow the record's key order, not the headers' order |
| `ExportHtml.DocumentContents` | src/components/utils/exportToPDF.ts:9-51 | the document contains the title verbatim in `<title>` and `<h1>`, the header row, the body, and "Total Record: n" with n the record count |
| `ExportHtml.IndexOfChar` | src/components/utils/exportToPDF.ts:58 | the position of the first occurrence of a character, or the length when absent |
| `ExportHtml.FileNameOfIsoTimestamp` | src/components/utils/exportToPDF.ts:58 | for an ISO timestamp the download is named filename + "_" + its YYYY-MM-DD part + ".html" |
| `Domain.DivisionNames` | src/integrations/supabase/types.ts:216 | division names and the enumeration correspond one to one |
| `Domain.TransactionKindNames` | src/integrations/supabase/types.ts:218-222 | transaction kind names and the enumeration correspond one to one |
| `Text.ContainsIff` | src/pages/Stock.tsx:82 | `includes` holds exactly when the pattern occurs at some position |
| `Text.NatToStringRoundTrip` | src/components/utils/exportToPDF.ts:47 | reading the decimal digits of a count back gives the count |
| `Text.Capitalize` | src/pages/Employees.tsx:71 | keeps the length, upper-cases the first character, keeps the rest |
| `Text.Prefix` | src/pages/Employees.tsx:72 | `slice(0, n)` has length min(len, n) and is a prefix |

## Left out

- Database calls are not modelled: every select, insert and delete, the ordering of query results, and the realtime subscriptions that trigger a re-fetch. Query results are inputs: a row sequence, or `Fetched.FetchError`.
- React rendering, effects, the loading skeletons, toasts beyond their message text, the delete confirmation on the stock page, and routing are not modelled.
- `Intl.NumberFormat`, `toLocaleString` and `toLocaleDateString` are function parameters. So are the clock readings (`new Date()`), because they are locale or runtime services.
- The percentage shown on the asset page is floating-point division with `toFixed(1)`. Only its zero guard is modelled.
- Prices are integers in the model (`harga: int`). The stock form stores `parseFloat` of the entered price (src/components/forms/AddStockForm.tsx:42), so a price can be fractional and every stok × harga total is a float64 sum with rounding. The exact stok × harga values and sums proved here (`Assets.KindTotalsAddUp`, `Assets.SummaryOfItems`, the dashboard's value card in `StockOverview.OverviewAgreesWithOtherPages`, `Transactions.TransactionValue`) hold for whole-number prices only. Unit counts and salaries are integers in the source too.
- `parseInt` is not modelled. An amount is an already-parsed integer, and `None` stands for an empty field. A non-numeric amount is therefore not modelled; in the source it parses to NaN and passes the `<= 0` guard.
- The production query's month window is not modelled. It is calendar arithmetic done by the runtime; the rows are taken as already restricted to the month.
- A missing join (a production row whose employee or item is null) is not modelled. In the source it throws a TypeError and the recap is not updated; the model always has the joined fields.
- `Production.RecapBuilder.AddRow`: plain-object lookups that hit an inherited property are not modelled. An id or a division named like an `Object.prototype` member (e.g. "constructor") behaves as an ordinary unknown key here.
- `Production.Recap`: `Object.values` lists keys in creation order in the model. That matches the source because employee ids are UUIDs; integer-like keys, which JavaScript would list first, are not modelled.
- On a failed fetch the stock, transaction and employee pages keep the previous list on display. Only the asset page's state is modelled as a class for this.
- `StockOverview.FetchStockData` takes the fetched rows only. The dashboard's failed query (src/components/dashboard/StockOverview.tsx:66-68) shows a toast and keeps the cards as they were, which is not modelled.
- `Production.FetchProductionData` takes the fetched rows only. A failed production query (src/components/production/ProductionRecap.tsx:105-107) is not modelled as an input. It ends like the unknown-division failure that is modelled: a toast, and the previous list stays on display.
- Text handling is ASCII only. `toLowerCase`/`toUpperCase` map only A–Z/a–z; other Unicode case mappings are not modelled.
- The Blob, anchor and click steps of the report download are not modelled; only the file name and the HTML text are.
- `AddStockForm.tsx` and `AddEmployeeForm.tsx` are not part of this model. Each is a single non-empty check before an insert.
- `DataSeeder.tsx` inserts and deletes remotely and is not part of this model. Only its sample items are used as concrete values.
- `getTransactionTypeIcon` and `getTransactionTypeColor` on the transaction page are not modelled. They are JSX and class-name lookups of the same shape as the employee page's, which are modelled.
