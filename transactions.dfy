/** The transaction page (`Transactions.tsx`): search and kind filtering of stock
    movements, the per-kind totals, the row display rules and the transaction report. */
module Transactions {
  import opened Wrappers
  import opened Seqs
  import opened Text
  import Domain
  import ExportHtml

  /** The item a transaction row is joined with (`barang(nama_barang, harga, jenis)`). */
  datatype JoinedItem = JoinedItem(namaBarang: string, harga: int, jenis: string)

  /** A row of `transaksi`; the kind and the note may be null, and the joined item is
      missing when the query returns none. */
  datatype Transaction = Transaction(idTransaksi: string, idBarang: string, jumlah: int,
                                     jenis: Option<Domain.TransactionKind>, keterangan: Option<string>,
                                     tanggal: string, barang: Option<JoinedItem>)

  function Jumlah(t: Transaction): int
  {
    t.jumlah
  }

  // ---------------------------------------------------------------------------
  // Filtering.

  /** `item.barang?.nama_barang...includes(term) || item.keterangan?...includes(term)`:
      an absent item or note is `undefined`, which does not match. */
  predicate MatchesSearch(term: string, t: Transaction)
  {
    || (t.barang.Some? && IncludesIgnoringCase(t.barang.value.namaBarang, term))
    || (t.keterangan.Some? && IncludesIgnoringCase(t.keterangan.value, term))
  }

  /** `filterType === 'all' || item.jenis === filterType`; a null kind equals no filter value. */
  predicate PassesType(filterType: string, t: Transaction)
  {
    filterType == "all" || (t.jenis.Some? && Domain.TransactionKindName(t.jenis.value) == filterType)
  }

  predicate Shown(term: string, filterType: string, t: Transaction)
  {
    (term != "" ==> MatchesSearch(term, t)) && PassesType(filterType, t)
  }

  function SearchBy(term: string): Transaction -> bool
  {
    (t: Transaction) => MatchesSearch(term, t)
  }

  function KindIs(filterType: string): Transaction -> bool
  {
    (t: Transaction) => t.jenis.Some? && Domain.TransactionKindName(t.jenis.value) == filterType
  }

  function TypeBy(filterType: string): Transaction -> bool
  {
    (t: Transaction) => PassesType(filterType, t)
  }

  function ShownBy(term: string, filterType: string): Transaction -> bool
  {
    (t: Transaction) => Shown(term, filterType, t)
  }

  /** The rows listed for a search term and a kind filter, in list order. */
  function Visible(ts: seq<Transaction>, term: string, filterType: string): seq<Transaction>
  {
    Filter(ts, ShownBy(term, filterType))
  }

  /** `filterData`: narrows the list by the search term, then by the selected kind. */
  method FilterData(transactions: seq<Transaction>, searchTerm: string, filterType: string)
    returns (filtered: seq<Transaction>)
    ensures filtered == Visible(transactions, searchTerm, filterType)
    ensures IsSubsequence(filtered, transactions)
    ensures forall x :: multiset(filtered)[x] ==
                        if Shown(searchTerm, filterType, x) then multiset(transactions)[x] else 0
    ensures searchTerm == "" && filterType == "all" ==> filtered == transactions
  {
    filtered := transactions;
    if searchTerm != "" {
      filtered := Filter(filtered, SearchBy(searchTerm));
    }
    ghost var searched := filtered;
    if filterType != "all" {
      filtered := Filter(filtered, KindIs(filterType));
      FilterAgree(searched, KindIs(filterType), TypeBy(filterType));
    } else {
      FilterAllKept(searched, TypeBy(filterType));
    }
    VisibleFacts(transactions, searchTerm, filterType);
  }

  /** The search step then the kind step list exactly `Visible`; the listed rows keep
      their order, each shown one appears as often as in the input and no other appears,
      and with no search and 'all' nothing is dropped. */
  lemma VisibleFacts(s: seq<Transaction>, term: string, filterType: string)
    ensures Filter(if term != "" then Filter(s, SearchBy(term)) else s, TypeBy(filterType))
            == Visible(s, term, filterType)
    ensures IsSubsequence(Visible(s, term, filterType), s)
    ensures forall x :: multiset(Visible(s, term, filterType))[x] ==
                        if Shown(term, filterType, x) then multiset(s)[x] else 0
    ensures term == "" && filterType == "all" ==> Visible(s, term, filterType) == s
  {
    FilterInTwoSteps(s, term != "", SearchBy(term), TypeBy(filterType), ShownBy(term, filterType));
    FilterExact(s, ShownBy(term, filterType));
  }

  /** A listed row has the selected kind, and under a search its item name or its note
      contains the term; a row with neither an item nor a note is never listed under a
      search. */
  lemma VisibleRows(ts: seq<Transaction>, term: string, filterType: string, x: Transaction)
    requires x in Visible(ts, term, filterType)
    ensures filterType != "all" ==> x.jenis.Some? && Domain.TransactionKindName(x.jenis.value) == filterType
    ensures term != "" ==>
      || (x.barang.Some? && Contains(ToLower(x.barang.value.namaBarang), ToLower(term)))
      || (x.keterangan.Some? && Contains(ToLower(x.keterangan.value), ToLower(term)))
    ensures term != "" ==> x.barang.Some? || x.keterangan.Some?
  {
    assert ShownBy(term, filterType)(x);
  }

  // ---------------------------------------------------------------------------
  // Totals.

  function OfKind(kind: Domain.TransactionKind): Transaction -> bool
  {
    (t: Transaction) => t.jenis == Some(kind)
  }

  predicate HasKind(t: Transaction)
  {
    t.jenis.Some?
  }

  /** `totalMasuk`, `totalKeluarProduksi`, `totalKeluarPenjualan`, `totalKeluarLainnya`. */
  function TotalOfKind(ts: seq<Transaction>, kind: Domain.TransactionKind): int
  {
    Sum(Filter(ts, OfKind(kind)), Jumlah)
  }

  /** The four totals add up to the amount of every row that has a kind; rows with a
      null kind are in none of them. */
  lemma {:induction false} FourTotalsAddUp(ts: seq<Transaction>)
    ensures TotalOfKind(ts, Domain.Masuk) + TotalOfKind(ts, Domain.KeluarProduksi)
          + TotalOfKind(ts, Domain.KeluarPenjualan) + TotalOfKind(ts, Domain.KeluarLainnya)
            == Sum(Filter(ts, HasKind), Jumlah)
  {
    if ts != [] {
      var t, rest := ts[0], ts[1..];
      assert ts == [t] + rest;
      FourTotalsAddUp(rest);
      SumFilterCons(t, rest, OfKind(Domain.Masuk), Jumlah);
      SumFilterCons(t, rest, OfKind(Domain.KeluarProduksi), Jumlah);
      SumFilterCons(t, rest, OfKind(Domain.KeluarPenjualan), Jumlah);
      SumFilterCons(t, rest, OfKind(Domain.KeluarLainnya), Jumlah);
      SumFilterCons(t, rest, HasKind, Jumlah);
      match t.jenis {
        case None =>
        case Some(k) =>
          match k {
            case Masuk =>
            case KeluarProduksi =>
            case KeluarPenjualan =>
            case KeluarLainnya =>
          }
      }
    }
  }

  /** Each total card is the amount of the rows the kind filter lists with no search. */
  lemma TotalIsFilteredAmount(ts: seq<Transaction>, kind: Domain.TransactionKind)
    ensures TotalOfKind(ts, kind) == Sum(Visible(ts, "", Domain.TransactionKindName(kind)), Jumlah)
  {
    var name := Domain.TransactionKindName(kind);
    forall i | 0 <= i < |ts| ensures OfKind(kind)(ts[i]) == ShownBy("", name)(ts[i]) {
      if ts[i].jenis.Some? {
        Domain.TransactionKindNames(kind, Domain.TransactionKindName(ts[i].jenis.value));
        Domain.TransactionKindNames(ts[i].jenis.value, name);
      }
    }
    FilterAgree(ts, OfKind(kind), ShownBy("", name));
  }

  // ---------------------------------------------------------------------------
  // Display rules.

  /** `getTransactionTypeLabel`. */
  function TypeLabel(jenis: string): (r: string)
    ensures jenis == "masuk" ==> r == "Barang Masuk"
    ensures jenis == "keluar_produksi" ==> r == "Keluar untuk Produksi"
    ensures jenis == "keluar_penjualan" ==> r == "Keluar untuk Penjualan"
    ensures jenis == "keluar_lainnya" ==> r == "Keluar Lainnya"
    ensures Domain.ParseTransactionKind(jenis).None? ==> r == jenis
  {
    match jenis
    case "masuk" => "Barang Masuk"
    case "keluar_produksi" => "Keluar untuk Produksi"
    case "keluar_penjualan" => "Keluar untuk Penjualan"
    case "keluar_lainnya" => "Keluar Lainnya"
    case _ => jenis
  }

  /** The four kinds get four different non-empty labels; any other string is its own
      label, so the label alone does not always tell a kind apart from free text. */
  lemma LabelsDistinct(a: Domain.TransactionKind, b: Domain.TransactionKind)
    ensures TypeLabel(Domain.TransactionKindName(a)) == TypeLabel(Domain.TransactionKindName(b)) <==> a == b
    ensures TypeLabel(Domain.TransactionKindName(a)) != ""
    ensures TypeLabel("Barang Masuk") == TypeLabel("masuk")
  {
  }

  /** The sign shown before the amount. */
  function Sign(jenis: Option<Domain.TransactionKind>): (r: string)
    ensures r == "+" <==> jenis == Some(Domain.Masuk)
    ensures r == "-" <==> jenis != Some(Domain.Masuk)
  {
    if jenis == Some(Domain.Masuk) then "+" else "-"
  }

  /** The value of a row: amount times the joined item's price, when there is one. */
  function TransactionValue(t: Transaction): (v: Option<int>)
    ensures v.Some? <==> t.barang.Some?
    ensures v.Some? ==> v.value == t.jumlah * t.barang.value.harga
  {
    match t.barang
    case Some(b) => Some(t.jumlah * b.harga)
    case None => None
  }

  /** The "Nilai" column: the formatted value, or '-' when the item is missing. */
  function ValueText(t: Transaction, formatCurrency: int -> string): (r: string)
    ensures t.barang.None? ==> r == "-"
    ensures t.barang.Some? ==> r == formatCurrency(t.jumlah * t.barang.value.harga)
  {
    match TransactionValue(t)
    case Some(v) => formatCurrency(v)
    case None => "-"
  }

  // ---------------------------------------------------------------------------
  // The transaction report.

  const TransactionHeaders: seq<string> := ["Tanggal", "Barang", "Jenis Transaksi", "Jumlah", "Nilai", "Keterangan"]

  /** `a || 'fallback'` on an optional string. */
  function OrElse(s: Option<string>, fallback: string): string
  {
    if s.Some? && s.value != "" then s.value else fallback
  }

  /** One record of the report. `formatDate`, `formatCurrency` and `formatNumber` are the
      locale formatters; a null kind gives a null label. */
  function ExportRow(t: Transaction, formatDate: string -> string, formatCurrency: int -> string,
                     formatNumber: int -> string): (r: ExportHtml.Record)
    ensures Map(r, ExportHtml.Key) == TransactionHeaders
  {
    var nama := if t.barang.Some? then Some(t.barang.value.namaBarang) else None;
    [("Tanggal", ExportHtml.Str(formatDate(t.tanggal))),
     ("Barang", ExportHtml.Str(OrElse(nama, "Barang Tidak Ditemukan"))),
     ("Jenis Transaksi", if t.jenis.Some? then ExportHtml.Str(TypeLabel(Domain.TransactionKindName(t.jenis.value)))
                         else ExportHtml.Null),
     ("Jumlah", ExportHtml.Str(Sign(t.jenis) + formatNumber(t.jumlah))),
     ("Nilai", ExportHtml.Str(ValueText(t, formatCurrency))),
     ("Keterangan", ExportHtml.Str(OrElse(t.keterangan, "-")))]
  }

  function ExportRows(ts: seq<Transaction>, formatDate: string -> string, formatCurrency: int -> string,
                      formatNumber: int -> string): seq<ExportHtml.Record>
  {
    Map(ts, (t: Transaction) => ExportRow(t, formatDate, formatCurrency, formatNumber))
  }

  /** The report of the listed rows. */
  function ExportTransactions(filteredData: seq<Transaction>, formatDate: string -> string,
                              formatCurrency: int -> string, formatNumber: int -> string,
                              exportedAt: string, iso: string): ExportHtml.ExportFile
  {
    ExportHtml.ExportToPdf("Laporan Transaksi Barang",
                           ExportRows(filteredData, formatDate, formatCurrency, formatNumber),
                           TransactionHeaders, "laporan-transaksi", exportedAt, iso)
  }

  /** The cells of a report row: the item falls back to 'Barang Tidak Ditemukan', a null
      kind and an empty note render as '-', and the amount starts with '+' exactly for
      inbound rows. */
  lemma ExportCells(ts: seq<Transaction>, formatDate: string -> string, formatCurrency: int -> string,
                    formatNumber: int -> string, i: int)
    requires 0 <= i < |ts|
    ensures var cells := ExportHtml.Table(ExportRows(ts, formatDate, formatCurrency, formatNumber))[i];
      && |cells| == |TransactionHeaders|
      && (ts[i].barang.None? ==> cells[1] == "Barang Tidak Ditemukan")
      && (ts[i].jenis.None? <==> cells[2] == "-")
      && (cells[3][0] == '+' <==> ts[i].jenis == Some(Domain.Masuk))
      && (ts[i].barang.None? ==> cells[4] == "-")
      && (ts[i].keterangan.None? ==> cells[5] == "-")
      && (ts[i].keterangan.Some? && ts[i].keterangan.value != "" ==> cells[5] == ts[i].keterangan.value)
  {
    var t := ts[i];
    var row := ExportRow(t, formatDate, formatCurrency, formatNumber);
    assert ExportRows(ts, formatDate, formatCurrency, formatNumber)[i] == row;
    var cells := ExportHtml.RenderedValues(row);
    if t.jenis.Some? {
      LabelsDistinct(t.jenis.value, t.jenis.value);
    }
    var amount := Sign(t.jenis) + formatNumber(t.jumlah);
    assert amount[0] == Sign(t.jenis)[0];
    assert !ExportHtml.Falsy(ExportHtml.Str(amount));
  }
}
