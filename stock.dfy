/** The stock page (`Stock.tsx`): search and kind filtering of the loaded items, the
    three-way stock status, the summary counts and the stock report. */
module Stock {
  import opened Seqs
  import opened Text
  import opened Inventory
  import Domain
  import ExportHtml

  // ---------------------------------------------------------------------------
  // Filtering.

  /** The item's name contains the search term, ignoring case. */
  predicate MatchesSearch(term: string, item: StockItem)
  {
    IncludesIgnoringCase(item.namaBarang, term)
  }

  /** The `switch (filterType)`: the three named filters, and no filtering for any other
      value ('all' among them). */
  predicate PassesType(filterType: string, item: StockItem)
  {
    if filterType == "bahan_baku" then item.jenis == Domain.BahanBaku
    else if filterType == "barang_jadi" then item.jenis == Domain.BarangJadi
    else if filterType == "low_stock" then IsLowStock(item)
    else true
  }

  /** An item is listed when it matches a non-empty search term and passes the filter. */
  predicate Shown(term: string, filterType: string, item: StockItem)
  {
    (term != "" ==> MatchesSearch(term, item)) && PassesType(filterType, item)
  }

  function SearchBy(term: string): StockItem -> bool
  {
    (item: StockItem) => MatchesSearch(term, item)
  }

  function TypeBy(filterType: string): StockItem -> bool
  {
    (item: StockItem) => PassesType(filterType, item)
  }

  function ShownBy(term: string, filterType: string): StockItem -> bool
  {
    (item: StockItem) => Shown(term, filterType, item)
  }

  /** The items listed for a search term and a filter, in list order. */
  function Visible(items: seq<StockItem>, term: string, filterType: string): seq<StockItem>
  {
    Filter(items, ShownBy(term, filterType))
  }

  /** `filterData`: narrows the list by the search term, then by the selected filter. */
  method FilterData(stockData: seq<StockItem>, searchTerm: string, filterType: string)
    returns (filtered: seq<StockItem>)
    ensures filtered == Visible(stockData, searchTerm, filterType)
    ensures IsSubsequence(filtered, stockData)
    ensures forall x :: multiset(filtered)[x] ==
                        if Shown(searchTerm, filterType, x) then multiset(stockData)[x] else 0
    ensures searchTerm == "" && filterType == "all" ==> filtered == stockData
  {
    filtered := stockData;
    if searchTerm != "" {
      filtered := Filter(filtered, SearchBy(searchTerm));
    }
    ghost var searched := filtered;
    if filterType == "bahan_baku" {
      filtered := Filter(filtered, OfKind(Domain.BahanBaku));
      FilterAgree(searched, OfKind(Domain.BahanBaku), TypeBy(filterType));
    } else if filterType == "barang_jadi" {
      filtered := Filter(filtered, OfKind(Domain.BarangJadi));
      FilterAgree(searched, OfKind(Domain.BarangJadi), TypeBy(filterType));
    } else if filterType == "low_stock" {
      filtered := Filter(filtered, IsLowStock);
      FilterAgree(searched, IsLowStock, TypeBy(filterType));
    } else {
      FilterAllKept(searched, TypeBy(filterType));
    }
    VisibleFacts(stockData, searchTerm, filterType);
  }

  /** The search step then the kind step list exactly `Visible`; the listed items keep
      their order, each shown one appears as often as in the input and no other appears,
      and with no search and 'all' nothing is dropped. */
  lemma VisibleFacts(s: seq<StockItem>, term: string, filterType: string)
    ensures Filter(if term != "" then Filter(s, SearchBy(term)) else s, TypeBy(filterType))
            == Visible(s, term, filterType)
    ensures IsSubsequence(Visible(s, term, filterType), s)
    ensures forall x :: multiset(Visible(s, term, filterType))[x] ==
                        if Shown(term, filterType, x) then multiset(s)[x] else 0
    ensures term == "" && filterType == "all" ==> Visible(s, term, filterType) == s
  {
    FilterInTwoSteps(s, term != "", SearchBy(term), TypeBy(filterType), ShownBy(term, filterType));
    FilterExact(s, ShownBy(term, filterType));
  }

  /** What a listed item satisfies, filter by filter. */
  lemma VisibleItems(items: seq<StockItem>, term: string, filterType: string, x: StockItem)
    requires x in Visible(items, term, filterType)
    ensures x in items
    ensures term != "" ==> Contains(ToLower(x.namaBarang), ToLower(term))
    ensures filterType == "bahan_baku" ==> x.jenis == Domain.BahanBaku
    ensures filterType == "barang_jadi" ==> x.jenis == Domain.BarangJadi
    ensures filterType == "low_stock" ==> x.stok <= x.stokMinimum
  {
    assert ShownBy(term, filterType)(x);
  }

  // ---------------------------------------------------------------------------
  // Status.

  /** The object `getStockStatus` returns. */
  datatype StockStatus = StockStatus(status: string, color: string)

  function GetStockStatus(stok: int, stokMinimum: int): (r: StockStatus)
    ensures r.status == "Habis" <==> stok == 0
    ensures r.status == "Menipis" <==> stok != 0 && stok <= stokMinimum
    ensures r.status == "Aman" <==> stok != 0 && stok > stokMinimum
    ensures r.color == "destructive" <==> r.status == "Habis"
    ensures r.color == "warning" <==> r.status == "Menipis"
    ensures r.color == "success" <==> r.status == "Aman"
  {
    if stok == 0 then StockStatus("Habis", "destructive")
    else if stok <= stokMinimum then StockStatus("Menipis", "warning")
    else StockStatus("Aman", "success")
  }

  /** `getStockStatusColor`: the badge classes, chosen by the same three-way split as
      the status. */
  function GetStockStatusColor(stok: int, stokMinimum: int): (c: string)
    ensures c == "bg-destructive/20 text-destructive border-destructive/30"
            <==> GetStockStatus(stok, stokMinimum).status == "Habis"
    ensures c == "bg-warning/20 text-warning border-warning/30"
            <==> GetStockStatus(stok, stokMinimum).status == "Menipis"
    ensures c == "bg-success/20 text-success border-success/30"
            <==> GetStockStatus(stok, stokMinimum).status == "Aman"
  {
    if stok == 0 then "bg-destructive/20 text-destructive border-destructive/30"
    else if stok <= stokMinimum then "bg-warning/20 text-warning border-warning/30"
    else "bg-success/20 text-success border-success/30"
  }

  // ---------------------------------------------------------------------------
  // Summary counts.

  /** `lowStockCount`. */
  function LowStockCount(stockData: seq<StockItem>): (n: nat)
    ensures n <= |stockData|
    ensures n == 0 <==> forall i :: 0 <= i < |stockData| ==> !IsLowStock(stockData[i])
  {
    NoneKept(stockData, IsLowStock);
    |LowStock(stockData)|
  }

  /** `outOfStockCount`. */
  function OutOfStockCount(stockData: seq<StockItem>): (n: nat)
    ensures n <= |stockData|
    ensures n == 0 <==> forall i :: 0 <= i < |stockData| ==> stockData[i].stok != 0
  {
    NoneKept(stockData, IsOutOfStock);
    |OutOfStock(stockData)|
  }

  /** The "Stok Aman" card: the items above their minimum, never a negative number. */
  function SafeCount(stockData: seq<StockItem>): (n: int)
    ensures n >= 0
    ensures n == |Filter(stockData, IsAboveMinimum)|
  {
    LowAndSafeSplit(stockData);
    |stockData| - LowStockCount(stockData)
  }

  /** The out-of-stock card never shows more than the low-stock card while minimums are
      not negative. */
  lemma OutOfStockCountAtMostLowStockCount(stockData: seq<StockItem>)
    requires forall i :: 0 <= i < |stockData| ==> stockData[i].stokMinimum >= 0
    ensures OutOfStockCount(stockData) <= LowStockCount(stockData)
  {
    OutOfStockAtMostLowStock(stockData);
  }

  // ---------------------------------------------------------------------------
  // The stock report.

  const StockHeaders: seq<string> := ["Nama Barang", "Jenis", "Stok", "Min. Stok", "Status", "Harga", "Total Nilai"]

  /** The status object exactly as it is placed in the report: a plain object. */
  function StatusObject(item: StockItem): ExportHtml.Value
  {
    var st := GetStockStatus(item.stok, item.stokMinimum);
    ExportHtml.Obj([("status", st.status), ("color", st.color)])
  }

  /** One record of the stock report; `formatCurrency` is the locale currency formatter. */
  function ExportRow(item: StockItem, formatCurrency: int -> string): (r: ExportHtml.Record)
    ensures Map(r, ExportHtml.Key) == StockHeaders
    ensures r[0].1 == ExportHtml.Str(item.namaBarang)
    ensures r[2].1 == ExportHtml.Str(IntToString(item.stok))
    ensures r[1].1 == ExportHtml.Str(Domain.ItemKindLabel(item.jenis))
    ensures r[3].1 == ExportHtml.Str(IntToString(item.stokMinimum))
    ensures r[4].1 == StatusObject(item) && r[4].1.Obj?
    ensures r[5].1 == ExportHtml.Str(formatCurrency(item.harga))
    ensures r[6].1 == ExportHtml.Str(formatCurrency(ItemValue(item)))
  {
    [("Nama Barang", ExportHtml.Str(item.namaBarang)),
     ("Jenis", ExportHtml.Str(Domain.ItemKindLabel(item.jenis))),
     ("Stok", ExportHtml.Str(IntToString(item.stok))),
     ("Min. Stok", ExportHtml.Str(IntToString(item.stokMinimum))),
     ("Status", StatusObject(item)),
     ("Harga", ExportHtml.Str(formatCurrency(item.harga))),
     ("Total Nilai", ExportHtml.Str(formatCurrency(item.stok * item.harga)))]
  }

  function ExportRows(items: seq<StockItem>, formatCurrency: int -> string): seq<ExportHtml.Record>
  {
    Map(items, (item: StockItem) => ExportRow(item, formatCurrency))
  }

  /** `handleExportPDF`: the report of the listed items. */
  function ExportStock(filteredData: seq<StockItem>, formatCurrency: int -> string,
                       exportedAt: string, iso: string): ExportHtml.ExportFile
  {
    ExportHtml.ExportToPdf("Laporan Stok Barang", ExportRows(filteredData, formatCurrency),
                           StockHeaders, "laporan-stok", exportedAt, iso)
  }

  /** In every report row the Status cell reads "[object Object]" rather than the status,
      and the Stok cell shows the number even when it is 0; the columns follow the
      headers, since the record keys are written in header order. */
  lemma ExportCells(items: seq<StockItem>, formatCurrency: int -> string, i: int)
    requires 0 <= i < |items|
    ensures var cells := ExportHtml.Table(ExportRows(items, formatCurrency))[i];
      && |cells| == |StockHeaders|
      && cells[4] == "[object Object]"
      && cells[2] == IntToString(items[i].stok)
      && cells[2] != "-"
  {
    var row := ExportRow(items[i], formatCurrency);
    assert ExportRows(items, formatCurrency)[i] == row;
    var cells := ExportHtml.RenderedValues(row);
    assert Map(row, ExportHtml.Key)[4] == "Status";
    assert cells[4] == ExportHtml.Render(row[4].1);
    var stok := IntToString(items[i].stok);
    assert cells[2] == ExportHtml.Render(ExportHtml.Str(stok));
    assert !ExportHtml.Falsy(ExportHtml.Str(stok));
  }
}
