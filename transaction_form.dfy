/** The "add transaction" dialog (`AddTransactionForm.tsx`): the guards an entry must
    pass, the record inserted for it, and the dialog state around the submission. */
module TransactionForm {
  import opened Wrappers
  import opened Text

  /** An item of the dialog's item list (`id_barang, nama_barang, stok`). */
  datatype FormItem = FormItem(idBarang: string, namaBarang: string, stok: int)

  /** The form fields. `jenis` is "" until a kind is chosen; `jumlah` is the parsed amount,
      `None` while the amount field is empty. */
  datatype FormData = FormData(idBarang: string, jenis: string, jumlah: Option<int>, keterangan: string)

  const EmptyForm: FormData := FormData("", "", None, "")

  /** The record inserted into `transaksi`. */
  datatype NewTransaction = NewTransaction(idBarang: string, jenis: string, jumlah: int,
                                           keterangan: Option<string>, tanggal: string)

  const MissingFields: string := "Field wajib harus diisi"
  const NotPositive: string := "Jumlah harus lebih dari 0"
  const InsufficientPrefix: string := "Stok tidak mencukupi. Stok tersedia: "

  /** `items.find(item => item.id_barang === id)`: the first item with that id. */
  function FindItem(items: seq<FormItem>, id: string): (r: Option<FormItem>)
    ensures r.None? <==> forall i :: 0 <= i < |items| ==> items[i].idBarang != id
    ensures r.Some? ==> exists i :: 0 <= i < |items| && items[i] == r.value && r.value.idBarang == id
                                    && forall j :: 0 <= j < i ==> items[j].idBarang != id
  {
    if items == [] then None
    else if items[0].idBarang == id then Some(items[0])
    else
      var r := FindItem(items[1..], id);
      FirstMatchInTail(items, id, r);
      r
  }

  /** A first match in the tail is a first match in the list when the head does not match. */
  lemma FirstMatchInTail(items: seq<FormItem>, id: string, r: Option<FormItem>)
    requires items != [] && items[0].idBarang != id
    requires r.Some? ==> exists i :: 0 <= i < |items[1..]| && items[1..][i] == r.value && r.value.idBarang == id
                                     && forall j :: 0 <= j < i ==> items[1..][j].idBarang != id
    ensures r.Some? ==> exists i :: 0 <= i < |items| && items[i] == r.value && r.value.idBarang == id
                                    && forall j :: 0 <= j < i ==> items[j].idBarang != id
  {
    if r.Some? {
      var i :| 0 <= i < |items[1..]| && items[1..][i] == r.value && r.value.idBarang == id
               && forall j :: 0 <= j < i ==> items[1..][j].idBarang != id;
      assert items[i + 1] == r.value;
    }
  }

  /** The stock check blocks the entry: an outgoing kind, an item found in the list, and
      less stock than the amount. */
  predicate StockShort(items: seq<FormItem>, form: FormData)
    requires form.jumlah.Some?
  {
    form.jenis != "masuk"
    && FindItem(items, form.idBarang).Some?
    && FindItem(items, form.idBarang).value.stok < form.jumlah.value
  }

  /** The guards of `handleSubmit` in their order, then the record to insert. */
  function Validate(items: seq<FormItem>, form: FormData, now: string): (r: Result<NewTransaction, string>)
    ensures r == Err(MissingFields) <==> form.idBarang == "" || form.jenis == "" || form.jumlah.None?
    ensures r == Err(NotPositive) <==>
              form.idBarang != "" && form.jenis != "" && form.jumlah.Some? && form.jumlah.value <= 0
    ensures r.Err? && r.error != MissingFields && r.error != NotPositive <==>
              form.idBarang != "" && form.jenis != "" && form.jumlah.Some? && form.jumlah.value > 0
              && StockShort(items, form)
    ensures r.Err? && r.error != MissingFields && r.error != NotPositive ==>
              r.error == InsufficientPrefix + IntToString(FindItem(items, form.idBarang).value.stok)
    ensures r.Ok? ==>
      && r.value.idBarang == form.idBarang && r.value.jenis == form.jenis
      && form.jumlah == Some(r.value.jumlah) && r.value.jumlah > 0
      && (r.value.keterangan == None <==> form.keterangan == "")
      && (form.keterangan != "" ==> r.value.keterangan == Some(form.keterangan))
      && r.value.tanggal == now
  {
    if form.idBarang == "" || form.jenis == "" || form.jumlah.None? then Err(MissingFields)
    else if form.jumlah.value <= 0 then Err(NotPositive)
    else if StockShort(items, form) then
      var msg := InsufficientPrefix + IntToString(FindItem(items, form.idBarang).value.stok);
      assert msg[..|InsufficientPrefix|] == InsufficientPrefix;
      Err(msg)
    else
      Ok(NewTransaction(form.idBarang, form.jenis, form.jumlah.value,
                        if form.keterangan == "" then None else Some(form.keterangan), now))
  }

  /** An accepted outgoing entry never takes more than the stock of its item, when the
      item is in the loaded list; an inbound entry, or one whose item the list lacks, is
      accepted whatever the stock. */
  lemma AcceptedEntries(items: seq<FormItem>, form: FormData, now: string)
    ensures var r := Validate(items, form, now);
      r.Ok? && form.jenis != "masuk" && FindItem(items, form.idBarang).Some? ==>
        r.value.jumlah <= FindItem(items, form.idBarang).value.stok
    ensures form.idBarang != "" && form.jenis != "" && form.jumlah.Some? && form.jumlah.value > 0
            && (form.jenis == "masuk" || forall i :: 0 <= i < |items| ==> items[i].idBarang != form.idBarang)
            ==> Validate(items, form, now).Ok?
  {
  }

  /** The toast shown after a submission. */
  datatype Toast = ErrorToast(message: string) | SuccessToast(message: string)

  const Added: string := "Transaksi berhasil ditambahkan"
  const InsertFailed: string := "Gagal menambahkan transaksi"

  /** The dialog's state. */
  class TransactionDialog {
    var open: bool
    var loading: bool
    var items: seq<FormItem>
    var formData: FormData

    constructor ()
      ensures !open && !loading && items == [] && formData == EmptyForm
    {
      open := false;
      loading := false;
      items := [];
      formData := EmptyForm;
    }

    /** Opening the dialog loads the item list; on a load error the list stays as it was. */
    method OpenDialog(fetched: Fetched<FormItem>)
      modifies this
      ensures open && loading == old(loading) && formData == old(formData)
      ensures items == if fetched.Loaded? then fetched.rows else old(items)
    {
      open := true;
      if fetched.Loaded? {
        items := fetched.rows;
      }
    }

    /** `handleSubmit`, given the time of submission and whether the insert succeeds.
        Returns the toast and the record sent to the database, if any. */
    method HandleSubmit(now: string, insertSucceeds: bool) returns (toast: Toast, inserted: Option<NewTransaction>)
      modifies this
      ensures var v := Validate(old(items), old(formData), now);
        && (v.Err? ==> toast == ErrorToast(v.error) && inserted == None)
        && (v.Ok? ==> inserted == Some(v.value))
        && (v.Ok? && insertSucceeds ==> toast == SuccessToast(Added) && formData == EmptyForm && !open)
        && (v.Ok? && !insertSucceeds ==> toast == ErrorToast(InsertFailed))
        && (v.Err? || !insertSucceeds ==> formData == old(formData) && open == old(open))
      ensures items == old(items)
      ensures loading == (old(loading) && Validate(old(items), old(formData), now).Err?)
    {
      var v := Validate(items, formData, now);
      if v.Err? {
        return ErrorToast(v.error), None;
      }
      loading := true;
      inserted := Some(v.value);
      if insertSucceeds {
        toast := SuccessToast(Added);
        formData := EmptyForm;
        open := false;
      } else {
        toast := ErrorToast(InsertFailed);
      }
      loading := false;
    }
  }
}
