/** A row of the `barang` table as the stock, asset and dashboard pages load it, and
    the stock rules those pages share. */
module Inventory {
  import opened Seqs
  import Domain

  datatype StockItem = StockItem(idBarang: string, namaBarang: string, jenis: Domain.ItemKind,
                                 stok: int, stokMinimum: int, harga: int)

  /** `item.stok <= item.stok_minimum`: the item needs restocking. */
  predicate IsLowStock(item: StockItem)
  {
    item.stok <= item.stokMinimum
  }

  predicate IsAboveMinimum(item: StockItem)
  {
    item.stok > item.stokMinimum
  }

  /** `item.stok === 0`. */
  predicate IsOutOfStock(item: StockItem)
  {
    item.stok == 0
  }

  /** `item.stok * item.harga`: what the stock of an item is worth, in rupiah. */
  function ItemValue(item: StockItem): int
  {
    item.stok * item.harga
  }

  function Stok(item: StockItem): int
  {
    item.stok
  }

  /** `item.jenis === kind`. */
  function OfKind(kind: Domain.ItemKind): StockItem -> bool
  {
    (item: StockItem) => item.jenis == kind
  }

  /** The items that need restocking, in list order. */
  function LowStock(items: seq<StockItem>): seq<StockItem>
  {
    Filter(items, IsLowStock)
  }

  function OutOfStock(items: seq<StockItem>): seq<StockItem>
  {
    Filter(items, IsOutOfStock)
  }

  function KindCount(items: seq<StockItem>, kind: Domain.ItemKind): nat
  {
    |Filter(items, OfKind(kind))|
  }

  /** The low-stock list keeps the input order and holds every low item exactly as often
      as the input does, and nothing else. */
  lemma LowStockExact(items: seq<StockItem>)
    ensures IsSubsequence(LowStock(items), items)
    ensures forall x :: multiset(LowStock(items))[x] == if IsLowStock(x) then multiset(items)[x] else 0
  {
    FilterIsSubsequence(items, IsLowStock);
    forall x ensures multiset(LowStock(items))[x] == if IsLowStock(x) then multiset(items)[x] else 0 {
      FilterMultiplicity(items, IsLowStock, x);
    }
  }

  /** The out-of-stock list keeps the input order and holds every item with no stock
      exactly as often as the input does, and nothing else. */
  lemma OutOfStockExact(items: seq<StockItem>)
    ensures IsSubsequence(OutOfStock(items), items)
    ensures forall x :: multiset(OutOfStock(items))[x] == if IsOutOfStock(x) then multiset(items)[x] else 0
  {
    FilterExact(items, IsOutOfStock);
  }

  /** With no negative minimum, an item with no stock is also low on stock, so there are
      never more out-of-stock items than low-stock items. */
  lemma OutOfStockAtMostLowStock(items: seq<StockItem>)
    requires forall i :: 0 <= i < |items| ==> items[i].stokMinimum >= 0
    ensures |OutOfStock(items)| <= |LowStock(items)|
  {
    FilterCountMonotone(items, IsOutOfStock, IsLowStock);
  }

  /** Every item is low on stock or above its minimum, never both. */
  lemma LowAndSafeSplit(items: seq<StockItem>)
    ensures |LowStock(items)| + |Filter(items, IsAboveMinimum)| == |items|
  {
    FilterCountSplit(items, IsLowStock, IsAboveMinimum);
  }

  /** Every item is raw material or a finished good, so the two kind counts add up to
      the number of items. */
  lemma KindCountsAddUp(items: seq<StockItem>)
    ensures KindCount(items, Domain.BahanBaku) + KindCount(items, Domain.BarangJadi) == |items|
  {
    FilterCountSplit(items, OfKind(Domain.BahanBaku), OfKind(Domain.BarangJadi));
  }

  /** The stock rows the demo seeder inserts. */
  const SampleStock: seq<StockItem> := [
    StockItem("", "Tabung Gas 3kg", Domain.BarangJadi, 25, 10, 150000),
    StockItem("", "Tabung Gas 12kg", Domain.BarangJadi, 8, 15, 350000),
    StockItem("", "Regulator Gas", Domain.BarangJadi, 50, 20, 45000),
    StockItem("", "Selang Gas", Domain.BarangJadi, 120, 50, 25000),
    StockItem("", "Besi Plat", Domain.BahanBaku, 200, 100, 12000),
    StockItem("", "Cat Primer", Domain.BahanBaku, 15, 25, 85000)]

  /** Of the seeded rows, "Tabung Gas 12kg" and "Cat Primer" are the two low on stock. */
  lemma SampleStockHasTwoLowItems()
    ensures LowStock(SampleStock) == [SampleStock[1], SampleStock[5]]
  {
    TwoLowOfSix(SampleStock);
  }

  /** Any six rows with the seeded stock levels and minimums. */
  lemma TwoLowOfSix(s: seq<StockItem>)
    requires |s| == 6
    requires s[0].stok == 25 && s[0].stokMinimum == 10 && s[1].stok == 8 && s[1].stokMinimum == 15
    requires s[2].stok == 50 && s[2].stokMinimum == 20 && s[3].stok == 120 && s[3].stokMinimum == 50
    requires s[4].stok == 200 && s[4].stokMinimum == 100 && s[5].stok == 15 && s[5].stokMinimum == 25
    ensures LowStock(s) == [s[1], s[5]]
  {
    var t5 := [s[5]];
    var t4 := [s[4]] + t5;
    var t3 := [s[3]] + t4;
    var t2 := [s[2]] + t3;
    var t1 := [s[1]] + t2;
    assert s == [s[0]] + t1;
    FilterCons(s[5], [], IsLowStock);
    assert t5 == [s[5]] + [];
    FilterCons(s[4], t5, IsLowStock);
    FilterCons(s[3], t4, IsLowStock);
    FilterCons(s[2], t3, IsLowStock);
    FilterCons(s[1], t2, IsLowStock);
    FilterCons(s[0], t1, IsLowStock);
  }
}
