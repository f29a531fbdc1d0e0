/** The three enumerations of the database schema (`types.ts`) and the strings the
    pages compare them with. */
module Domain {
  import opened Wrappers

  /** `divisi_karyawan`: the production division an employee works in. */
  datatype Division = Tabung | Asesoris | Packing

  /** `jenis_barang`: raw material or finished good. */
  datatype ItemKind = BahanBaku | BarangJadi

  /** `jenis_transaksi`: one inbound and three outbound kinds of stock movement. */
  datatype TransactionKind = Masuk | KeluarProduksi | KeluarPenjualan | KeluarLainnya

  function DivisionName(d: Division): string
  {
    match d
    case Tabung => "tabung"
    case Asesoris => "asesoris"
    case Packing => "packing"
  }

  function ParseDivision(s: string): Option<Division>
  {
    if s == "tabung" then Some(Tabung)
    else if s == "asesoris" then Some(Asesoris)
    else if s == "packing" then Some(Packing)
    else None
  }

  /** The column's strings and the enumeration correspond one to one. */
  lemma DivisionNames(d: Division, s: string)
    ensures ParseDivision(DivisionName(d)) == Some(d)
    ensures ParseDivision(s) == Some(d) <==> s == DivisionName(d)
  {
  }

  function ItemKindName(k: ItemKind): string
  {
    match k
    case BahanBaku => "bahan_baku"
    case BarangJadi => "barang_jadi"
  }

  /** The label pages show for an item kind. */
  function ItemKindLabel(k: ItemKind): string
  {
    match k
    case BahanBaku => "Bahan Baku"
    case BarangJadi => "Barang Jadi"
  }

  function TransactionKindName(k: TransactionKind): string
  {
    match k
    case Masuk => "masuk"
    case KeluarProduksi => "keluar_produksi"
    case KeluarPenjualan => "keluar_penjualan"
    case KeluarLainnya => "keluar_lainnya"
  }

  function ParseTransactionKind(s: string): Option<TransactionKind>
  {
    if s == "masuk" then Some(Masuk)
    else if s == "keluar_produksi" then Some(KeluarProduksi)
    else if s == "keluar_penjualan" then Some(KeluarPenjualan)
    else if s == "keluar_lainnya" then Some(KeluarLainnya)
    else None
  }

  lemma TransactionKindNames(k: TransactionKind, s: string)
    ensures ParseTransactionKind(TransactionKindName(k)) == Some(k)
    ensures ParseTransactionKind(s) == Some(k) <==> s == TransactionKindName(k)
  {
  }
}
