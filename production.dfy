/** The monthly production and payroll recap (`ProductionRecap.tsx`). The month's
    production rows, joined with their employee and item, are grouped by employee; each
    employee's units are summed and their pay is the base salary of their division plus
    a bonus per unit produced. */
module Production {
  import opened Wrappers
  import opened Seqs
  import Domain

  datatype SalaryConfig = SalaryConfig(base: int, bonusPerUnit: int)

  /** `salaryConfig`: base salary and bonus per unit, in rupiah, keyed by division. */
  const SalaryTable: map<string, SalaryConfig> := map[
    "tabung" := SalaryConfig(3500000, 1500),
    "asesoris" := SalaryConfig(3200000, 1200),
    "packing" := SalaryConfig(3000000, 1000)]

  /** The table has an entry for exactly the three divisions of the schema, and a
      division with a higher base also pays a higher bonus per unit. */
  lemma SalaryTableCoversDivisions(divisi: string)
    ensures divisi in SalaryTable <==> Domain.ParseDivision(divisi).Some?
    ensures forall d :: Domain.DivisionName(d) in SalaryTable
    ensures forall a, b :: (a in SalaryTable && b in SalaryTable && SalaryTable[a].base < SalaryTable[b].base)
                           ==> SalaryTable[a].bonusPerUnit < SalaryTable[b].bonusPerUnit
  {
    assert SalaryTable.Keys == {"tabung", "asesoris", "packing"};
  }

  /** One row of the `produksi` query with its joined employee and item. */
  datatype ProductionRow = ProductionRow(idKaryawan: string, nama: string, divisi: string,
                                         namaBarang: string, jumlah: int, tanggal: string)

  /** An entry of an employee's `productions` list. */
  datatype ProductionLine = ProductionLine(namaBarang: string, jumlah: int, tanggal: string)

  /** One employee's recap (`ProductionData`). */
  datatype ProductionData = ProductionData(idKaryawan: string, nama: string, divisi: string,
                                           totalProduksi: int, gajiDasar: int, bonusProduksi: int,
                                           totalGaji: int, productions: seq<ProductionLine>)

  function LineOf(row: ProductionRow): ProductionLine
  {
    ProductionLine(row.namaBarang, row.jumlah, row.tanggal)
  }

  function Jumlah(row: ProductionRow): int
  {
    row.jumlah
  }

  // ---------------------------------------------------------------------------
  // Specification: what the recap of a list of rows is.

  /** The rows of one employee, in input order. */
  function RowsOf(rows: seq<ProductionRow>, id: string): seq<ProductionRow>
    decreases |rows|
  {
    if rows == [] then []
    else RowsOf(rows[..|rows| - 1], id) + (if rows[|rows| - 1].idKaryawan == id then [rows[|rows| - 1]] else [])
  }

  /** The employees of the rows, each once, in the order of their first row. */
  function EmployeeIds(rows: seq<ProductionRow>): seq<string>
    decreases |rows|
  {
    if rows == [] then []
    else
      var ids := EmployeeIds(rows[..|rows| - 1]);
      var id := rows[|rows| - 1].idKaryawan;
      if id in ids then ids else ids + [id]
  }

  /** Row `i` is the first row of its employee. */
  predicate IsFirstOf(rows: seq<ProductionRow>, i: int)
  {
    0 <= i < |rows| && forall j :: 0 <= j < i ==> rows[j].idKaryawan != rows[i].idKaryawan
  }

  /** The division on the employee's first row has a salary configuration. */
  predicate FirstDivisionKnown(rows: seq<ProductionRow>, id: string)
  {
    RowsOf(rows, id) != [] && RowsOf(rows, id)[0].divisi in SalaryTable
  }

  predicate AllDivisionsKnown(rows: seq<ProductionRow>)
  {
    forall id :: id in EmployeeIds(rows) ==> FirstDivisionKnown(rows, id)
  }

  /** An employee's entry after the grouping pass: name and division from the first
      row, units summed, one line per row, base salary set and no bonus yet. */
  function Pending(rows: seq<ProductionRow>, id: string): ProductionData
    requires FirstDivisionKnown(rows, id)
  {
    var mine := RowsOf(rows, id);
    var first := mine[0];
    var config := SalaryTable[first.divisi];
    ProductionData(id, first.nama, first.divisi, Sum(mine, Jumlah), config.base, 0, config.base, Map(mine, LineOf))
  }

  /** The bonus pass on one entry. */
  function WithBonus(e: ProductionData): ProductionData
    requires e.divisi in SalaryTable
  {
    var bonus := e.totalProduksi * SalaryTable[e.divisi].bonusPerUnit;
    e.(bonusProduksi := bonus, totalGaji := e.gajiDasar + bonus)
  }

  /** The recap of the rows, one entry per employee in order of first appearance; `None`
      when an employee's first row names a division the salary table lacks (the lookup
      `config.base` then throws and the page keeps what it showed before). */
  function Recap(rows: seq<ProductionRow>): Option<seq<ProductionData>>
  {
    if !AllDivisionsKnown(rows) then None
    else
      var ids := EmployeeIds(rows);
      Some(seq(|ids|, j requires 0 <= j < |ids| => WithBonus(Pending(rows, ids[j]))))
  }

  // ---------------------------------------------------------------------------
  // The two passes as the page runs them.

  /** The entry created for an employee's first row. */
  function Opened(row: ProductionRow): ProductionData
    requires row.divisi in SalaryTable
  {
    var config := SalaryTable[row.divisi];
    ProductionData(row.idKaryawan, row.nama, row.divisi, 0, config.base, 0, config.base, [])
  }

  /** Adding one row to its employee's entry. */
  function Absorb(e: ProductionData, row: ProductionRow): ProductionData
  {
    e.(totalProduksi := e.totalProduksi + row.jumlah, productions := e.productions + [LineOf(row)])
  }

  /** Listing a dictionary's entries along a list that names every key lists every entry. */
  lemma EveryKeyListed(keys: seq<string>, g: map<string, ProductionData>, vs: seq<ProductionData>)
    requires |vs| == |keys|
    requires forall i :: 0 <= i < |keys| ==> keys[i] in g && vs[i] == g[keys[i]]
    requires forall k :: k in g ==> k in keys
    ensures forall k :: k in g ==> g[k] in vs
  {
    forall k | k in g
      ensures g[k] in vs
    {
      var i :| 0 <= i < |keys| && keys[i] == k;
      assert vs[i] == g[k];
    }
  }

  /** `groupedData`: a dictionary from employee id to entry. `keys` is the order in which
      the entries were created, which is the order `Object.values` lists them in. */
  class RecapBuilder {
    var grouped: map<string, ProductionData>
    var keys: seq<string>

    ghost predicate Valid()
      reads this
    {
      && (forall i, j :: 0 <= i < j < |keys| ==> keys[i] != keys[j])
      && (forall k :: k in grouped <==> k in keys)
      && (forall k :: k in grouped ==> grouped[k].divisi in SalaryTable)
    }

    constructor ()
      ensures Valid() && grouped == map[] && keys == []
    {
      grouped := map[];
      keys := [];
    }

    /** `Object.values(groupedData)`: every entry of the dictionary exactly once, in the
        order of `keys`. */
    function Values(): (vs: seq<ProductionData>)
      reads this
      requires Valid()
      ensures |vs| == |keys| == |grouped|
      ensures forall k :: k in grouped ==> grouped[k] in vs
      ensures forall i :: 0 <= i < |keys| ==> keys[i] in grouped && vs[i] == grouped[keys[i]]
    {
      DistinctCount(keys);
      assert grouped.Keys == set k | k in keys;
      var vs := seq(|keys|, i reads this requires 0 <= i < |keys| && Valid() => grouped[keys[i]]);
      EveryKeyListed(keys, grouped, vs);
      vs
    }

    /** The body of the grouping `forEach` for one row. Returns false where the page
        throws: a new employee whose division has no salary configuration. */
    method AddRow(row: ProductionRow) returns (ok: bool)
      requires Valid()
      modifies this
      ensures Valid()
      ensures ok <==> row.idKaryawan in old(grouped) || row.divisi in SalaryTable
      ensures !ok ==> grouped == old(grouped) && keys == old(keys)
      ensures ok && row.idKaryawan in old(grouped) ==>
        && keys == old(keys)
        && grouped == old(grouped)[row.idKaryawan := Absorb(old(grouped)[row.idKaryawan], row)]
      ensures ok && row.idKaryawan !in old(grouped) ==>
        && keys == old(keys) + [row.idKaryawan]
        && grouped == old(grouped)[row.idKaryawan := Absorb(Opened(row), row)]
    {
      var id := row.idKaryawan;
      if id !in grouped {
        if row.divisi !in SalaryTable {
          return false;
        }
        var config := SalaryTable[row.divisi];
        grouped := grouped[id := ProductionData(id, row.nama, row.divisi, 0, config.base, 0, config.base, [])];
        keys := keys + [id];
      }
      var e := grouped[id];
      grouped := grouped[id := e.(totalProduksi := e.totalProduksi + row.jumlah,
                                  productions := e.productions + [LineOf(row)])];
      ok := true;
    }

    /** The second `forEach`: sets each entry's bonus and total pay in place. */
    method ApplyBonuses()
      requires Valid()
      modifies this
      ensures Valid() && keys == old(keys) && grouped.Keys == old(grouped).Keys
      ensures forall k :: k in grouped ==> grouped[k] == WithBonus(old(grouped)[k])
    {
      var g := grouped;
      var i := 0;
      while i < |keys|
        invariant 0 <= i <= |keys|
        invariant g.Keys == grouped.Keys
        invariant forall k :: k in g ==> g[k] == if k in keys[..i] then WithBonus(grouped[k]) else grouped[k]
      {
        var k := keys[i];
        assert keys[..i + 1] == keys[..i] + [k];
        assert k !in keys[..i];
        var e := g[k];
        var config := SalaryTable[e.divisi];
        var bonus := e.totalProduksi * config.bonusPerUnit;
        g := g[k := e.(bonusProduksi := bonus, totalGaji := e.gajiDasar + bonus)];
        i := i + 1;
      }
      assert keys[..i] == keys;
      grouped := g;
    }
  }

  /** The grouping and bonus passes of `fetchProductionData` over the fetched rows. */
  method FetchProductionData(rows: seq<ProductionRow>) returns (result: Option<seq<ProductionData>>)
    ensures result == Recap(rows)
  {
    var b := new RecapBuilder();
    assert rows[..0] == [];
    for i := 0 to |rows|
      invariant b.Valid()
      invariant Mirrors(b.grouped, b.keys, rows[..i])
    {
      var s, r := rows[..i], rows[i];
      assert rows[..i + 1] == s + [r];
      ghost var g0, k0 := b.grouped, b.keys;
      var ok := b.AddRow(r);
      if !ok {
        MirrorsFail(g0, k0, s, r);
        assert rows[..i + 1] + rows[i + 1..] == rows;
        if AllDivisionsKnown(rows) {
          KnownPrefix(rows[..i + 1], rows[i + 1..]);
        }
        return None;
      }
      MirrorsStep(g0, k0, s, r, b.grouped, b.keys);
    }
    assert rows[..|rows|] == rows;
    ghost var pending := b.grouped;
    b.ApplyBonuses();
    var vs := b.Values();
    MirrorsRecap(pending, b.keys, rows, b.grouped, vs);
    result := Some(vs);
  }

  /** The loop invariant of the grouping pass: after a prefix `s` of the rows, the
      dictionary holds the pending entry of every employee seen so far, created in order
      of first appearance. */
  ghost predicate Mirrors(grouped: map<string, ProductionData>, keys: seq<string>, s: seq<ProductionRow>)
  {
    && keys == EmployeeIds(s)
    && AllDivisionsKnown(s)
    && (forall k :: k in grouped ==> FirstDivisionKnown(s, k) && grouped[k] == Pending(s, k))
  }

  lemma MirrorsFail(grouped: map<string, ProductionData>, keys: seq<string>, s: seq<ProductionRow>, r: ProductionRow)
    requires Mirrors(grouped, keys, s) && (forall k :: k in grouped <==> k in keys)
    requires r.idKaryawan !in grouped && r.divisi !in SalaryTable
    ensures !AllDivisionsKnown(s + [r])
  {
    KnownStep(s, r);
  }

  lemma MirrorsStep(grouped: map<string, ProductionData>, keys: seq<string>, s: seq<ProductionRow>, r: ProductionRow,
                    grouped': map<string, ProductionData>, keys': seq<string>)
    requires Mirrors(grouped, keys, s) && (forall k :: k in grouped <==> k in keys)
    requires r.idKaryawan in grouped || r.divisi in SalaryTable
    requires r.idKaryawan in grouped ==>
      keys' == keys && grouped' == grouped[r.idKaryawan := Absorb(grouped[r.idKaryawan], r)]
    requires r.idKaryawan !in grouped ==>
      r.divisi in SalaryTable && keys' == keys + [r.idKaryawan] && grouped' == grouped[r.idKaryawan := Absorb(Opened(r), r)]
    ensures Mirrors(grouped', keys', s + [r])
  {
    KnownStep(s, r);
    IdsStep(s, r);
    forall k | k in grouped'
      ensures FirstDivisionKnown(s + [r], k) && grouped'[k] == Pending(s + [r], k)
    {
      IdsMembership(s + [r], k);
      RowsOfSnoc(s, r, k);
      IdsMembership(s, k);
      PendingStep(s, r, k);
    }
  }

  lemma MirrorsRecap(grouped: map<string, ProductionData>, keys: seq<string>, rows: seq<ProductionRow>,
                     final: map<string, ProductionData>, vs: seq<ProductionData>)
    requires Mirrors(grouped, keys, rows) && (forall k :: k in grouped <==> k in keys)
    requires final.Keys == grouped.Keys
    requires forall k :: k in grouped ==> grouped[k].divisi in SalaryTable && final[k] == WithBonus(grouped[k])
    requires |vs| == |keys| && forall i :: 0 <= i < |keys| ==> vs[i] == final[keys[i]]
    ensures Recap(rows) == Some(vs)
  {
    var rv := Recap(rows).value;
    assert |rv| == |keys|;
    forall i | 0 <= i < |vs| ensures rv[i] == vs[i] {
      var k := keys[i];
      assert k in grouped;
      assert rv[i] == WithBonus(Pending(rows, k));
    }
    assert rv == vs;
  }

  // ---------------------------------------------------------------------------
  // Facts about rows of one employee.

  lemma RowsOfSnoc(s: seq<ProductionRow>, r: ProductionRow, id: string)
    ensures RowsOf(s + [r], id) == RowsOf(s, id) + (if r.idKaryawan == id then [r] else [])
  {
    assert (s + [r])[..|s|] == s;
  }

  lemma {:induction false} RowsOfAppend(s: seq<ProductionRow>, t: seq<ProductionRow>, id: string)
    ensures RowsOf(s + t, id) == RowsOf(s, id) + RowsOf(t, id)
    decreases |t|
  {
    if t == [] {
      assert s + t == s;
    } else {
      var t0, last := t[..|t| - 1], t[|t| - 1];
      assert t == t0 + [last];
      assert s + t == (s + t0) + [last];
      RowsOfSnoc(s + t0, last, id);
      RowsOfSnoc(t0, last, id);
      RowsOfAppend(s, t0, id);
    }
  }

  /** An employee has no rows exactly when no row carries their id. */
  lemma {:induction false} RowsOfEmpty(rows: seq<ProductionRow>, id: string)
    ensures RowsOf(rows, id) == [] <==> forall j :: 0 <= j < |rows| ==> rows[j].idKaryawan != id
    decreases |rows|
  {
    if rows != [] {
      var s := rows[..|rows| - 1];
      RowsOfEmpty(s, id);
      assert forall j :: 0 <= j < |s| ==> rows[j] == s[j];
    }
  }

  /** Every row of an employee's list is a row of the input with that id. */
  lemma {:induction false} RowsOfMembers(rows: seq<ProductionRow>, id: string)
    ensures forall x :: x in RowsOf(rows, id) ==> x in rows && x.idKaryawan == id
    decreases |rows|
  {
    if rows != [] {
      var s := rows[..|rows| - 1];
      RowsOfMembers(s, id);
      assert rows == s + [rows[|rows| - 1]];
    }
  }

  lemma {:induction false} IdsMembership(rows: seq<ProductionRow>, id: string)
    ensures id in EmployeeIds(rows) <==> RowsOf(rows, id) != []
    decreases |rows|
  {
    if rows != [] {
      IdsMembership(rows[..|rows| - 1], id);
    }
  }

  lemma IdsStep(s: seq<ProductionRow>, r: ProductionRow)
    ensures EmployeeIds(s + [r]) == if r.idKaryawan in EmployeeIds(s) then EmployeeIds(s) else EmployeeIds(s) + [r.idKaryawan]
  {
    assert (s + [r])[..|s|] == s;
  }

  predicate DistinctIds(ids: seq<string>)
  {
    forall i, j :: 0 <= i < j < |ids| ==> ids[i] != ids[j]
  }

  lemma DistinctSnoc(ids: seq<string>, id: string)
    requires DistinctIds(ids) && id !in ids
    ensures DistinctIds(ids + [id])
  {
    var ids' := ids + [id];
    forall i, j | 0 <= i < j < |ids'| ensures ids'[i] != ids'[j] {
      assert ids'[i] == ids[i];
      if j < |ids| {
        assert ids'[j] == ids[j];
      }
    }
  }

  lemma DistinctTail(ids: seq<string>)
    requires DistinctIds(ids) && ids != []
    ensures DistinctIds(ids[1..]) && ids[0] !in ids[1..]
  {
    var rest := ids[1..];
    forall i, j | 0 <= i < j < |rest| ensures rest[i] != rest[j] {
      assert rest[i] == ids[i + 1] && rest[j] == ids[j + 1];
    }
    forall m | 0 <= m < |rest| ensures rest[m] != ids[0] {
      assert rest[m] == ids[m + 1];
    }
  }

  lemma {:induction false} IdsDistinct(rows: seq<ProductionRow>)
    ensures DistinctIds(EmployeeIds(rows))
    decreases |rows|
  {
    if rows != [] {
      var s := rows[..|rows| - 1];
      IdsDistinct(s);
      var id := rows[|rows| - 1].idKaryawan;
      if id !in EmployeeIds(s) {
        DistinctSnoc(EmployeeIds(s), id);
      }
    }
  }

  /** The first row of an employee's list is the row at their first index. */
  lemma {:induction false} FirstOccurrence(rows: seq<ProductionRow>, id: string)
    requires RowsOf(rows, id) != []
    ensures exists i :: IsFirstOf(rows, i) && rows[i].idKaryawan == id && RowsOf(rows, id)[0] == rows[i]
    decreases |rows|
  {
    var s := rows[..|rows| - 1];
    var last := rows[|rows| - 1];
    assert rows == s + [last];
    RowsOfSnoc(s, last, id);
    if RowsOf(s, id) != [] {
      FirstOccurrence(s, id);
      var i :| IsFirstOf(s, i) && s[i].idKaryawan == id && RowsOf(s, id)[0] == s[i];
      assert IsFirstOf(rows, i);
    } else {
      RowsOfEmpty(s, id);
      assert IsFirstOf(rows, |rows| - 1);
    }
  }

  lemma KnownStep(s: seq<ProductionRow>, r: ProductionRow)
    ensures AllDivisionsKnown(s + [r]) <==>
            AllDivisionsKnown(s) && (r.idKaryawan in EmployeeIds(s) || r.divisi in SalaryTable)
  {
    IdsStep(s, r);
    forall id
      ensures RowsOf(s + [r], id) == RowsOf(s, id) + (if r.idKaryawan == id then [r] else [])
      ensures id in EmployeeIds(s) <==> RowsOf(s, id) != []
    {
      RowsOfSnoc(s, r, id);
      IdsMembership(s, id);
    }
    if AllDivisionsKnown(s + [r]) {
      forall id | id in EmployeeIds(s) ensures FirstDivisionKnown(s, id) {
        assert FirstDivisionKnown(s + [r], id);
      }
      if r.idKaryawan !in EmployeeIds(s) {
        assert FirstDivisionKnown(s + [r], r.idKaryawan);
      }
    }
  }

  /** A division problem on some prefix of the rows remains one for all the rows. */
  lemma KnownPrefix(s: seq<ProductionRow>, t: seq<ProductionRow>)
    requires AllDivisionsKnown(s + t)
    ensures AllDivisionsKnown(s)
  {
    forall id | id in EmployeeIds(s) ensures FirstDivisionKnown(s, id) {
      IdsMembership(s, id);
      IdsMembership(s + t, id);
      RowsOfAppend(s, t, id);
      assert FirstDivisionKnown(s + t, id);
    }
  }

  /** How one more row changes each employee's pending entry. */
  lemma PendingStep(s: seq<ProductionRow>, r: ProductionRow, k: string)
    requires AllDivisionsKnown(s + [r]) && k in EmployeeIds(s + [r])
    ensures FirstDivisionKnown(s + [r], k)
    ensures k != r.idKaryawan ==> FirstDivisionKnown(s, k) && Pending(s + [r], k) == Pending(s, k)
    ensures k == r.idKaryawan && k in EmployeeIds(s) ==>
              FirstDivisionKnown(s, k) && Pending(s + [r], k) == Absorb(Pending(s, k), r)
    ensures k == r.idKaryawan && k !in EmployeeIds(s) ==>
              r.divisi in SalaryTable && Pending(s + [r], k) == Absorb(Opened(r), r)
  {
    KnownStep(s, r);
    RowsOfSnoc(s, r, k);
    IdsMembership(s, k);
    IdsMembership(s + [r], k);
    var mine := RowsOf(s, k);
    if k != r.idKaryawan {
      assert RowsOf(s + [r], k) == mine;
      assert k in EmployeeIds(s);
      assert FirstDivisionKnown(s, k);
    } else {
      SumAppend(mine, [r], Jumlah);
      MapAppend(mine, [r], LineOf);
      if k !in EmployeeIds(s) {
        assert mine == [];
        assert RowsOf(s + [r], k) == [r];
        assert Sum([r], Jumlah) == r.jumlah;
        assert Map([r], LineOf) == [LineOf(r)];
      } else {
        assert Sum([r], Jumlah) == r.jumlah;
        assert Map([r], LineOf) == [LineOf(r)];
      }
    }
  }

  // ---------------------------------------------------------------------------
  // Properties of the recap.

  /** The recap fails exactly when some employee's first row names a division that has
      no salary configuration; later rows of a known employee are never looked up. */
  lemma RecapFailsIff(rows: seq<ProductionRow>)
    ensures Recap(rows).None? <==>
            exists i :: IsFirstOf(rows, i) && rows[i].divisi !in SalaryTable
  {
    if Recap(rows).None? {
      var id :| id in EmployeeIds(rows) && !FirstDivisionKnown(rows, id);
      IdsMembership(rows, id);
      FirstOccurrence(rows, id);
    }
    if exists i :: IsFirstOf(rows, i) && rows[i].divisi !in SalaryTable {
      var i :| IsFirstOf(rows, i) && rows[i].divisi !in SalaryTable;
      var id := rows[i].idKaryawan;
      RowsOfEmpty(rows, id);
      IdsMembership(rows, id);
      FirstOccurrence(rows, id);
      var i' :| IsFirstOf(rows, i') && rows[i'].idKaryawan == id && RowsOf(rows, id)[0] == rows[i'];
      assert i' == i;
      assert !FirstDivisionKnown(rows, id);
    }
  }

  predicate HasRowOf(rows: seq<ProductionRow>, id: string)
  {
    exists i :: 0 <= i < |rows| && rows[i].idKaryawan == id
  }

  predicate HasEntryOf(es: seq<ProductionData>, id: string)
  {
    exists j :: 0 <= j < |es| && es[j].idKaryawan == id
  }

  /** The recap has one entry per distinct employee among the rows, and no employee
      appears twice. */
  lemma RecapOneEntryPerEmployee(rows: seq<ProductionRow>)
    requires Recap(rows).Some?
    ensures var es := Recap(rows).value;
      && |es| == |EmployeeIds(rows)|
      && (forall i, j :: 0 <= i < j < |es| ==> es[i].idKaryawan != es[j].idKaryawan)
      && (forall id :: HasEntryOf(es, id) <==> HasRowOf(rows, id))
  {
    var es := Recap(rows).value;
    var ids := EmployeeIds(rows);
    IdsDistinct(rows);
    assert forall j :: 0 <= j < |es| ==> es[j].idKaryawan == ids[j];
    forall id
      ensures HasEntryOf(es, id) <==> HasRowOf(rows, id)
    {
      IdsMembership(rows, id);
      RowsOfEmpty(rows, id);
      if id in ids {
        var j :| 0 <= j < |ids| && ids[j] == id;
        assert es[j].idKaryawan == id;
      }
    }
  }

  /** Each entry sums its employee's units, lists their rows in input order, takes its
      name, division and base salary from their first row, and pays base plus units
      times the division's bonus per unit. */
  lemma RecapEntry(rows: seq<ProductionRow>, j: int)
    requires Recap(rows).Some? && 0 <= j < |Recap(rows).value|
    ensures var e := Recap(rows).value[j];
      var mine := RowsOf(rows, e.idKaryawan);
      && mine != []
      && e.totalProduksi == Sum(mine, Jumlah)
      && e.productions == Map(mine, LineOf)
      && |e.productions| == |mine|
      && e.nama == mine[0].nama && e.divisi == mine[0].divisi
      && e.divisi in SalaryTable
      && e.gajiDasar == SalaryTable[e.divisi].base
      && e.bonusProduksi == e.totalProduksi * SalaryTable[e.divisi].bonusPerUnit
      && e.totalGaji == e.gajiDasar + e.bonusProduksi
  {
    var ids := EmployeeIds(rows);
    assert ids[j] in ids;
    assert FirstDivisionKnown(rows, ids[j]);
  }

  function TotalProduksiOf(e: ProductionData): int
  {
    e.totalProduksi
  }

  function TotalGajiOf(e: ProductionData): int
  {
    e.totalGaji
  }

  function GajiDasarOf(e: ProductionData): int
  {
    e.gajiDasar
  }

  function BonusOf(e: ProductionData): int
  {
    e.bonusProduksi
  }

  /** `totalProduksiKeseluruhan`. */
  function TotalProduksiKeseluruhan(es: seq<ProductionData>): int
  {
    Sum(es, TotalProduksiOf)
  }

  /** `totalGajiKeseluruhan`. */
  function TotalGajiKeseluruhan(es: seq<ProductionData>): int
  {
    Sum(es, TotalGajiOf)
  }

  /** Units summed employee by employee over a list of ids. */
  function UnitsByEmployee(rows: seq<ProductionRow>, ids: seq<string>): int
  {
    if ids == [] then 0 else Sum(RowsOf(rows, ids[0]), Jumlah) + UnitsByEmployee(rows, ids[1..])
  }

  lemma {:induction false} UnitsByEmployeeSnocId(rows: seq<ProductionRow>, ids: seq<string>, id: string)
    ensures UnitsByEmployee(rows, ids + [id]) == UnitsByEmployee(rows, ids) + Sum(RowsOf(rows, id), Jumlah)
  {
    if ids == [] {
      assert ids + [id] == [id];
    } else {
      assert (ids + [id])[1..] == ids[1..] + [id];
      UnitsByEmployeeSnocId(rows, ids[1..], id);
    }
  }

  lemma {:induction false} UnitsByEmployeeSnocRow(s: seq<ProductionRow>, r: ProductionRow, ids: seq<string>)
    requires DistinctIds(ids)
    ensures UnitsByEmployee(s + [r], ids) == UnitsByEmployee(s, ids) + (if r.idKaryawan in ids then r.jumlah else 0)
  {
    if ids != [] {
      var rest := ids[1..];
      DistinctTail(ids);
      UnitsByEmployeeSnocRow(s, r, rest);
      RowsOfSnoc(s, r, ids[0]);
      SumAppend(RowsOf(s, ids[0]), [r], Jumlah);
      assert Sum([r], Jumlah) == r.jumlah;
      assert UnitsByEmployee(s + [r], ids) == Sum(RowsOf(s + [r], ids[0]), Jumlah) + UnitsByEmployee(s + [r], rest);
      assert UnitsByEmployee(s, ids) == Sum(RowsOf(s, ids[0]), Jumlah) + UnitsByEmployee(s, rest);
      assert r.idKaryawan in ids <==> r.idKaryawan == ids[0] || r.idKaryawan in rest;
      if r.idKaryawan == ids[0] {
        assert RowsOf(s + [r], ids[0]) == RowsOf(s, ids[0]) + [r];
        assert r.idKaryawan !in rest;
      } else {
        assert RowsOf(s + [r], ids[0]) == RowsOf(s, ids[0]);
      }
    }
  }

  /** Summing every employee's units gives the units of all rows. */
  lemma {:induction false} UnitsByEmployeeIsRowTotal(rows: seq<ProductionRow>)
    ensures UnitsByEmployee(rows, EmployeeIds(rows)) == Sum(rows, Jumlah)
    decreases |rows|
  {
    if rows != [] {
      var s, r := rows[..|rows| - 1], rows[|rows| - 1];
      assert rows == s + [r];
      UnitsByEmployeeIsRowTotal(s);
      IdsStep(s, r);
      IdsDistinct(s);
      UnitsByEmployeeSnocRow(s, r, EmployeeIds(s));
      SumAppend(s, [r], Jumlah);
      assert Sum([r], Jumlah) == r.jumlah;
      if r.idKaryawan !in EmployeeIds(s) {
        UnitsByEmployeeSnocId(rows, EmployeeIds(s), r.idKaryawan);
        IdsMembership(s, r.idKaryawan);
        RowsOfSnoc(s, r, r.idKaryawan);
        assert RowsOf(rows, r.idKaryawan) == [r];
      }
    }
  }

  lemma {:induction false} EntriesSumUnits(rows: seq<ProductionRow>, es: seq<ProductionData>, ids: seq<string>)
    requires |es| == |ids|
    requires forall j :: 0 <= j < |es| ==> es[j].totalProduksi == Sum(RowsOf(rows, ids[j]), Jumlah)
    ensures TotalProduksiKeseluruhan(es) == UnitsByEmployee(rows, ids)
  {
    if es != [] {
      EntriesSumUnits(rows, es[1..], ids[1..]);
    }
  }

  /** The overall production card equals the units of all the month's rows. */
  lemma OverallProductionIsRowTotal(rows: seq<ProductionRow>)
    requires Recap(rows).Some?
    ensures TotalProduksiKeseluruhan(Recap(rows).value) == Sum(rows, Jumlah)
  {
    var es := Recap(rows).value;
    EntriesSumUnits(rows, es, EmployeeIds(rows));
    UnitsByEmployeeIsRowTotal(rows);
  }

  /** The overall pay card is the sum of the base salaries plus the sum of the bonuses,
      and with no negative unit counts it is at least the lowest base salary
      (3,000,000) per employee. */
  lemma OverallPay(rows: seq<ProductionRow>)
    requires Recap(rows).Some?
    ensures var es := Recap(rows).value;
      TotalGajiKeseluruhan(es) == Sum(es, GajiDasarOf) + Sum(es, BonusOf)
    ensures (forall i :: 0 <= i < |rows| ==> rows[i].jumlah >= 0) ==>
      TotalGajiKeseluruhan(Recap(rows).value) >= 3000000 * |Recap(rows).value|
  {
    var es := Recap(rows).value;
    SumOfSums(es, GajiDasarOf, BonusOf, TotalGajiOf);
    if forall i :: 0 <= i < |rows| ==> rows[i].jumlah >= 0 {
      forall j | 0 <= j < |es| ensures TotalGajiOf(es[j]) >= 3000000 {
        var e := es[j];
        var mine := RowsOf(rows, e.idKaryawan);
        RecapEntry(rows, j);
        RowsOfMembers(rows, e.idKaryawan);
        SumNonNegative(mine, Jumlah);
        var c := SalaryTable[e.divisi];
        assert c.base >= 3000000 && c.bonusPerUnit >= 0;
        assert e.bonusProduksi >= 0;
      }
      SumLowerBound(es, TotalGajiOf, 3000000);
    }
  }

  // ---------------------------------------------------------------------------
  // What each employee card shows.

  /** At most this many production lines are listed on a card. */
  const DetailLimit: nat := 5

  /** The lines a card lists and, when some are left out, the `n` of its "+n lainnya" note. */
  datatype DetailView = DetailView(shown: seq<ProductionLine>, moreCount: Option<nat>)

  function Details(productions: seq<ProductionLine>): (v: DetailView)
    ensures |v.shown| == if |productions| < DetailLimit then |productions| else DetailLimit
    ensures v.shown == productions[..|v.shown|]
    ensures v.moreCount.Some? <==> |productions| > DetailLimit
    ensures |v.shown| + (if v.moreCount.Some? then v.moreCount.value else 0) == |productions|
  {
    var shown := if |productions| < DetailLimit then productions else productions[..DetailLimit];
    DetailView(shown, if |productions| > DetailLimit then Some(|productions| - DetailLimit) else None)
  }

  /** The "item berbeda" figure on a card. */
  function ItemCount(e: ProductionData): nat
  {
    |e.productions|
  }

  /** The "item berbeda" figure counts the employee's rows, not their distinct items:
      two rows of the same item give 2. */
  lemma ItemCountCountsRows(rows: seq<ProductionRow>, j: int)
    requires Recap(rows).Some? && 0 <= j < |Recap(rows).value|
    ensures ItemCount(Recap(rows).value[j]) == |RowsOf(rows, Recap(rows).value[j].idKaryawan)|
    ensures var r := ProductionRow("k1", "Ahmad Surya", "tabung", "Tabung Gas 3kg", 10, "2025-01-02");
      Recap([r, r]).Some? && ItemCount(Recap([r, r]).value[0]) == 2
  {
    RecapEntry(rows, j);
    var r := ProductionRow("k1", "Ahmad Surya", "tabung", "Tabung Gas 3kg", 10, "2025-01-02");
    assert [r, r] == [r] + [r];
    assert [r][..0] == [];
    RowsOfSnoc([], r, "k1");
    RowsOfSnoc([r], r, "k1");
    IdsStep([], r);
    IdsStep([r], r);
    assert EmployeeIds([r, r]) == ["k1"];
    assert RowsOf([r, r], "k1") == [r, r];
    assert AllDivisionsKnown([r, r]);
    RecapEntry([r, r], 0);
  }
}
