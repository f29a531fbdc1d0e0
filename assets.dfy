/** The asset page (`Assets.tsx`): every item valued at stock times price, and the
    total split by item kind. */
module Assets {
  import opened Wrappers
  import opened Seqs
  import opened Inventory
  import Domain

  /** An item with its `nilai_total`. */
  datatype AssetItem = AssetItem(item: StockItem, nilaiTotal: int)

  datatype AssetSummary = AssetSummary(totalAset: int, asetBahanBaku: int, asetBarangJadi: int, totalItems: nat)

  /** The summary the page shows before anything is loaded. */
  const InitialSummary: AssetSummary := AssetSummary(0, 0, 0, 0)

  function Valued(item: StockItem): AssetItem
  {
    AssetItem(item, item.stok * item.harga)
  }

  /** `processedData`: each row with its fields kept and `nilai_total` added. */
  function ProcessItems(data: seq<StockItem>): (r: seq<AssetItem>)
    ensures |r| == |data|
    ensures forall i :: 0 <= i < |data| ==> r[i].item == data[i] && r[i].nilaiTotal == ItemValue(data[i])
  {
    Map(data, Valued)
  }

  function NilaiTotal(a: AssetItem): int
  {
    a.nilaiTotal
  }

  function AssetOfKind(kind: Domain.ItemKind): AssetItem -> bool
  {
    (a: AssetItem) => a.item.jenis == kind
  }

  /** The value of the items of one kind. */
  function KindTotal(processed: seq<AssetItem>, kind: Domain.ItemKind): int
  {
    Sum(Filter(processed, AssetOfKind(kind)), NilaiTotal)
  }

  /** The summary computed from the processed rows. */
  function Summarize(processed: seq<AssetItem>): AssetSummary
  {
    AssetSummary(Sum(processed, NilaiTotal), KindTotal(processed, Domain.BahanBaku),
                 KindTotal(processed, Domain.BarangJadi), |processed|)
  }

  /** Every item is raw material or a finished good, so the two kind totals add up to
      the total asset value. */
  lemma {:induction false} KindTotalsAddUp(processed: seq<AssetItem>)
    ensures KindTotal(processed, Domain.BahanBaku) + KindTotal(processed, Domain.BarangJadi)
            == Sum(processed, NilaiTotal)
  {
    if processed != [] {
      var a, rest := processed[0], processed[1..];
      assert processed == [a] + rest;
      KindTotalsAddUp(rest);
      FilterCons(a, rest, AssetOfKind(Domain.BahanBaku));
      FilterCons(a, rest, AssetOfKind(Domain.BarangJadi));
      if a.item.jenis == Domain.BahanBaku {
        SumAppend([a], Filter(rest, AssetOfKind(Domain.BahanBaku)), NilaiTotal);
        assert Filter(processed, AssetOfKind(Domain.BarangJadi)) == Filter(rest, AssetOfKind(Domain.BarangJadi));
      } else {
        SumAppend([a], Filter(rest, AssetOfKind(Domain.BarangJadi)), NilaiTotal);
        assert Filter(processed, AssetOfKind(Domain.BahanBaku)) == Filter(rest, AssetOfKind(Domain.BahanBaku));
      }
    }
  }

  /** The summary of the loaded items: the total is the stock value of all items, the
      kind totals add up to it, and the item count is the number of rows. An empty list
      gives the all-zero initial summary. */
  lemma SummaryOfItems(data: seq<StockItem>)
    ensures var s := Summarize(ProcessItems(data));
      && s.totalAset == Sum(data, ItemValue)
      && s.asetBahanBaku + s.asetBarangJadi == s.totalAset
      && s.totalItems == |data|
    ensures data == [] ==> Summarize(ProcessItems(data)) == InitialSummary
  {
    SumOfMap(data, Valued, NilaiTotal, ItemValue);
    KindTotalsAddUp(ProcessItems(data));
  }

  /** With no negative stock or price, neither kind is worth more than the whole. */
  lemma {:induction false} KindTotalAtMostTotal(processed: seq<AssetItem>, kind: Domain.ItemKind)
    requires forall i :: 0 <= i < |processed| ==> processed[i].nilaiTotal >= 0
    ensures 0 <= KindTotal(processed, kind) <= Sum(processed, NilaiTotal)
  {
    if processed != [] {
      var a, rest := processed[0], processed[1..];
      assert processed == [a] + rest;
      KindTotalAtMostTotal(rest, kind);
      FilterCons(a, rest, AssetOfKind(kind));
      SumAppend(if AssetOfKind(kind)(a) then [a] else [], Filter(rest, AssetOfKind(kind)), NilaiTotal);
    }
  }

  /** The result of `getAssetPercentage`: the text '0', or the ratio it formats. */
  datatype Percentage = ZeroText | Ratio(value: int, total: int)

  /** `getAssetPercentage`: a share of a positive total, and '0' otherwise, so it never
      divides by zero. */
  function AssetPercentage(value: int, totalAset: int): (p: Percentage)
    ensures p.ZeroText? <==> totalAset <= 0
    ensures p.Ratio? ==> p.total > 0 && p.total == totalAset && p.value == value
  {
    if totalAset > 0 then Ratio(value, totalAset) else ZeroText
  }

  /** The page's state: the valued rows and their summary. */
  class AssetsPage {
    var assetData: seq<AssetItem>
    var summary: AssetSummary

    /** The summary describes the rows on display. */
    ghost predicate Consistent()
      reads this
    {
      summary == Summarize(assetData)
    }

    constructor ()
      ensures assetData == [] && summary == InitialSummary && Consistent()
    {
      assetData := [];
      summary := InitialSummary;
    }

    /** `fetchAssetData` once the query has returned: on success the rows are valued
        and summarised; on an error both stay as they were. */
    method FetchAssetData(result: Fetched<StockItem>)
      modifies this
      ensures result.Loaded? ==> assetData == ProcessItems(result.rows) && summary == Summarize(assetData)
      ensures result.FetchError? ==> assetData == old(assetData) && summary == old(summary)
      ensures old(Consistent()) ==> Consistent()
    {
      if result.FetchError? {
        return;
      }
      var processedData := Map(result.rows, Valued);
      assetData := processedData;
      var totalAset := Sum(processedData, NilaiTotal);
      var asetBahanBaku := Sum(Filter(processedData, AssetOfKind(Domain.BahanBaku)), NilaiTotal);
      var asetBarangJadi := Sum(Filter(processedData, AssetOfKind(Domain.BarangJadi)), NilaiTotal);
      summary := AssetSummary(totalAset, asetBahanBaku, asetBarangJadi, |processedData|);
    }
  }
}
