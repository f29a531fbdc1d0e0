/** The dashboard stock overview (`StockOverview.tsx`): the summary cards and the
    low-stock alert. */
module StockOverview {
  import opened Seqs
  import opened Inventory
  import Domain
  import Stock
  import Assets

  /** What `fetchStockData` stores: the rows, the low-stock rows and the total value. */
  datatype Overview = Overview(stockData: seq<StockItem>, lowStockItems: seq<StockItem>, totalAssets: int)

  function FetchStockData(data: seq<StockItem>): Overview
  {
    Overview(data, LowStock(data), Sum(data, ItemValue))
  }

  /** The "Total Stok" card. */
  function TotalUnits(stockData: seq<StockItem>): int
  {
    Sum(stockData, Stok)
  }

  /** The low-stock list holds exactly the low items, in order, and the value card shows
      the same figure as the asset page's total. */
  lemma OverviewAgreesWithOtherPages(data: seq<StockItem>)
    ensures var o := FetchStockData(data);
      && IsSubsequence(o.lowStockItems, data)
      && (forall x :: multiset(o.lowStockItems)[x] == if IsLowStock(x) then multiset(data)[x] else 0)
      && o.totalAssets == Assets.Summarize(Assets.ProcessItems(data)).totalAset
      && |o.lowStockItems| == Stock.LowStockCount(data)
  {
    LowStockExact(data);
    Assets.SummaryOfItems(data);
  }

  /** The kind counts under "Total Barang" add up to the number of items. */
  lemma KindCountsMatchTotal(data: seq<StockItem>)
    ensures KindCount(data, Domain.BahanBaku) + KindCount(data, Domain.BarangJadi) == |FetchStockData(data).stockData|
  {
    KindCountsAddUp(data);
  }

  /** With no negative stock, the unit total is at least the stock of any one item. */
  lemma {:induction false} TotalUnitsBound(stockData: seq<StockItem>, i: int)
    requires forall j :: 0 <= j < |stockData| ==> stockData[j].stok >= 0
    requires 0 <= i < |stockData|
    ensures TotalUnits(stockData) >= stockData[i].stok
  {
    if i > 0 {
      TotalUnitsBound(stockData[1..], i - 1);
    } else {
      SumNonNegative(stockData[1..], Stok);
    }
  }

  /** The "Peringatan Stok Menipis" card is rendered. */
  predicate AlertShown(o: Overview)
  {
    |o.lowStockItems| > 0
  }

  /** The alert appears exactly when some loaded item is low on stock. */
  lemma AlertIffSomeLow(data: seq<StockItem>)
    ensures AlertShown(FetchStockData(data)) <==> exists i :: 0 <= i < |data| && IsLowStock(data[i])
  {
    LowStockExact(data);
    if exists i :: 0 <= i < |data| && IsLowStock(data[i]) {
      var i :| 0 <= i < |data| && IsLowStock(data[i]);
      assert multiset(data)[data[i]] > 0;
    }
  }

  /** The badge variant of an item in the alert. */
  function BadgeVariant(item: StockItem): (v: string)
    ensures v == "destructive" <==> Stock.GetStockStatus(item.stok, item.stokMinimum).status == "Habis"
    ensures v == "outline" <==> item.stok != 0
  {
    if item.stok == 0 then "destructive" else "outline"
  }
}
