/** The employee page (`Employees.tsx`): the per-division counts, the division badge
    and icon, the displayed id, and the employee report. */
module Employees {
  import opened Seqs
  import opened Text
  import Domain
  import ExportHtml

  /** A row of `karyawan`. */
  datatype Employee = Employee(idKaryawan: string, nama: string, divisi: Domain.Division, createdAt: string)

  function InDivision(d: Domain.Division): Employee -> bool
  {
    (e: Employee) => e.divisi == d
  }

  /** `divisionStats`: the number of employees in each division. */
  datatype DivisionStats = DivisionStats(tabung: nat, asesoris: nat, packing: nat)

  function DivisionCount(employees: seq<Employee>, d: Domain.Division): nat
  {
    |Filter(employees, InDivision(d))|
  }

  function Stats(employees: seq<Employee>): DivisionStats
  {
    DivisionStats(DivisionCount(employees, Domain.Tabung), DivisionCount(employees, Domain.Asesoris),
                  DivisionCount(employees, Domain.Packing))
  }

  /** Every employee is in exactly one of the three divisions, so the three division
      cards add up to the "Total Karyawan" card. */
  lemma {:induction false} StatsAddUp(employees: seq<Employee>)
    ensures var s := Stats(employees); s.tabung + s.asesoris + s.packing == |employees|
  {
    if employees != [] {
      var e, rest := employees[0], employees[1..];
      assert employees == [e] + rest;
      StatsAddUp(rest);
      FilterCons(e, rest, InDivision(Domain.Tabung));
      FilterCons(e, rest, InDivision(Domain.Asesoris));
      FilterCons(e, rest, InDivision(Domain.Packing));
    }
  }

  /** `getDivisionColor`, also used verbatim on the production recap cards. */
  function DivisionColor(divisi: string): (r: string)
    ensures Domain.ParseDivision(divisi).None? ==> r == "bg-gray-500/10 text-gray-500 border-gray-500/20"
  {
    match divisi
    case "tabung" => "bg-blue-500/10 text-blue-500 border-blue-500/20"
    case "asesoris" => "bg-purple-500/10 text-purple-500 border-purple-500/20"
    case "packing" => "bg-orange-500/10 text-orange-500 border-orange-500/20"
    case _ => "bg-gray-500/10 text-gray-500 border-gray-500/20"
  }

  /** `getDivisionIcon`: a wrench, sparkles, a package, or a person for anything else. */
  function DivisionIcon(divisi: string): (r: string)
    ensures Domain.ParseDivision(divisi).None? ==> r == "\U{1F464}"
  {
    match divisi
    case "tabung" => "\U{1F527}"
    case "asesoris" => "\U{2728}"
    case "packing" => "\U{1F4E6}"
    case _ => "\U{1F464}"
  }

  /** The three divisions get three different colors and icons, each different from the
      default given to any other string. */
  lemma DivisionLookupsDistinct(a: Domain.Division, b: Domain.Division, other: string)
    requires Domain.ParseDivision(other).None?
    ensures DivisionColor(Domain.DivisionName(a)) == DivisionColor(Domain.DivisionName(b)) <==> a == b
    ensures DivisionIcon(Domain.DivisionName(a)) == DivisionIcon(Domain.DivisionName(b)) <==> a == b
    ensures DivisionColor(Domain.DivisionName(a)) != DivisionColor(other)
    ensures DivisionIcon(Domain.DivisionName(a)) != DivisionIcon(other)
  {
  }

  /** The division badge text: the name with its first letter upper-cased. */
  function DivisionLabel(d: Domain.Division): (r: string)
    ensures |r| == |Domain.DivisionName(d)|
    ensures r[0] == UpperChar(Domain.DivisionName(d)[0]) && r[1..] == Domain.DivisionName(d)[1..]
  {
    Capitalize(Domain.DivisionName(d))
  }

  /** The three badge texts. */
  lemma DivisionLabels()
    ensures DivisionLabel(Domain.Tabung) == "Tabung"
    ensures DivisionLabel(Domain.Asesoris) == "Asesoris"
    ensures DivisionLabel(Domain.Packing) == "Packing"
  {
    assert Domain.DivisionName(Domain.Tabung)[1..] == "abung";
    assert Domain.DivisionName(Domain.Asesoris)[1..] == "sesoris";
    assert Domain.DivisionName(Domain.Packing)[1..] == "acking";
  }

  /** `id_karyawan.slice(0, 8)`: the id shown on a card and in the report. */
  function ShortId(id: string): (r: string)
    ensures |r| == if |id| < 8 then |id| else 8
    ensures r == id[..|r|]
  {
    Prefix(id, 8)
  }

  // ---------------------------------------------------------------------------
  // The employee report.

  const EmployeeHeaders: seq<string> := ["Nama", "Divisi", "ID Karyawan", "Tanggal Bergabung", "Status"]

  /** One record of the report; `formatDate` is the locale date formatter. */
  function ExportRow(e: Employee, formatDate: string -> string): (r: ExportHtml.Record)
    ensures Map(r, ExportHtml.Key) == EmployeeHeaders
  {
    [("Nama", ExportHtml.Str(e.nama)),
     ("Divisi", ExportHtml.Str(DivisionLabel(e.divisi))),
     ("ID Karyawan", ExportHtml.Str(ShortId(e.idKaryawan))),
     ("Tanggal Bergabung", ExportHtml.Str(formatDate(e.createdAt))),
     ("Status", ExportHtml.Str("Aktif"))]
  }

  /** `employees.map(...)`: one record per employee, in the page's order. */
  function ExportRows(employees: seq<Employee>, formatDate: string -> string): (rows: seq<ExportHtml.Record>)
    ensures |rows| == |employees|
    ensures forall i :: 0 <= i < |rows| ==> rows[i] == ExportRow(employees[i], formatDate)
  {
    Map(employees, (e: Employee) => ExportRow(e, formatDate))
  }

  function ExportEmployees(employees: seq<Employee>, formatDate: string -> string,
                           exportedAt: string, iso: string): ExportHtml.ExportFile
  {
    ExportHtml.ExportToPdf("Daftar Karyawan", ExportRows(employees, formatDate), EmployeeHeaders,
                           "daftar-karyawan", exportedAt, iso)
  }

  /** Every row of the employee report shows the name, the capitalised division, the short
      id and the status 'Aktif', with '-' for an empty name or id. */
  lemma ExportCells(employees: seq<Employee>, formatDate: string -> string, i: int)
    requires 0 <= i < |employees|
    ensures var cells := ExportHtml.Table(ExportRows(employees, formatDate))[i];
      && |cells| == |EmployeeHeaders|
      && cells[0] == (if employees[i].nama == "" then "-" else employees[i].nama)
      && cells[1] == DivisionLabel(employees[i].divisi)
      && cells[2] == (if employees[i].idKaryawan == "" then "-" else ShortId(employees[i].idKaryawan))
      && cells[4] == "Aktif"
  {
    var row := ExportRow(employees[i], formatDate);
    assert ExportRows(employees, formatDate)[i] == row;
    var cells := ExportHtml.RenderedValues(row);
    assert |DivisionLabel(employees[i].divisi)| > 0;
  }
}
