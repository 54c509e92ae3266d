/** The salary map of `SalaryMap.tsx`: one row per employee with the pay
    figures of the employee's slip, or figures made up from the base salary
    when there is none, and a footer with the net, IRT and INSS totals. */
module SalaryMap {
  import opened Common
  import opened Staff
  import opened Payslip

  /** The slip figures a row reads. */
  datatype SlipFigures = SlipFigures(baseSalary: real, grossTotal: real, inss: real,
                                     irt: real, netTotal: real)

  function FiguresOf(s: SalarySlip): SlipFigures
  {
    SlipFigures(s.baseSalary, s.grossTotal, s.inss, s.irt, s.netTotal)
  }

  /** The stand-in when an employee has no slip: the base salary as gross,
      3% INSS, no IRT and 97% of the base as net. */
  function Fallback(emp: Employee): (f: SlipFigures)
    ensures f.baseSalary == f.grossTotal == emp.baseSalary
    ensures f.irt == 0.0 && f.netTotal == emp.baseSalary - f.inss
    ensures f.inss == Tax.INSS(emp.baseSalary)
  {
    SlipFigures(emp.baseSalary, emp.baseSalary, emp.baseSalary * 0.03, 0.0, emp.baseSalary * 0.97)
  }

  /** The row's slip: the first slip in the payroll with the employee's id,
      of whatever month and year, or the stand-in. */
  function SlipFor(payroll: seq<SalarySlip>, emp: Employee): (f: SlipFigures)
    ensures (forall j :: 0 <= j < |payroll| ==> payroll[j].employeeId != emp.id) ==> f == Fallback(emp)
    ensures forall k :: 0 <= k < |payroll| && payroll[k].employeeId == emp.id
                        && (forall j :: 0 <= j < k ==> payroll[j].employeeId != emp.id)
                        ==> f == FiguresOf(payroll[k])
  {
    var found := Find(payroll, (s: SalarySlip) => s.employeeId == emp.id);
    if found.Some? then FiguresOf(found.value) else Fallback(emp)
  }

  /** The period of a slip plays no part in the lookup: a slip of another
      month placed first is the one used. */
  lemma LookupIgnoresPeriod(emp: Employee, s: SalarySlip, rest: seq<SalarySlip>, month: int, year: int)
    requires s.employeeId == emp.id
    ensures SlipFor([s.(month := month, year := year)] + rest, emp) == FiguresOf(s)
  {
    var p := [s.(month := month, year := year)] + rest;
    assert p[0].employeeId == emp.id;
  }

  datatype Row = Row(id: nat, bi: string, nif: string, inssNo: string, name: string,
                     admission: int, termination: string, base: real, inss3: real,
                     irt: real, net: real, inss8: real, province: string)

  /** `text || fallback` on a string. */
  function OrText(s: string, fallback: string): string
  {
    if s != "" then s else fallback
  }

  /** The row of the employee at position `idx`. */
  function RowFor(emp: Employee, f: SlipFigures, idx: nat): (r: Row)
    ensures r.id == idx + 1
    ensures r.inss8 == Tax.INSSEntity(f.baseSalary)
    ensures r.base == f.baseSalary && r.inss3 == f.inss && r.irt == f.irt && r.net == f.netTotal
    ensures r.bi != "" && r.nif != "" && r.inssNo != "" && r.termination != "" && r.province != ""
  {
    Row(idx + 1, OrText(emp.biNumber, "---"), OrText(emp.nif, "---"), OrText(emp.ssn, "000000"),
        emp.name, emp.admissionDate, OrText(emp.terminationDate, "---"),
        f.baseSalary, f.inss, f.irt, f.netTotal, f.baseSalary * 0.08, OrText(emp.province, "LUANDA"))
  }

  /** `mapData`: exactly one row per employee, in employee order. */
  function MapData(employees: seq<Employee>, payroll: seq<SalarySlip>): (rows: seq<Row>)
    ensures |rows| == |employees|
    ensures forall i :: 0 <= i < |rows| ==> rows[i] == RowFor(employees[i], SlipFor(payroll, employees[i]), i)
  {
    seq(|employees|, i requires 0 <= i < |employees| => RowFor(employees[i], SlipFor(payroll, employees[i]), i))
  }

  /** An employee without a slip shows net = base − INSS, no IRT, and a
      combined INSS of 11% of the base. */
  lemma FallbackRow(employees: seq<Employee>, payroll: seq<SalarySlip>, i: nat)
    requires i < |employees|
    requires forall j :: 0 <= j < |payroll| ==> payroll[j].employeeId != employees[i].id
    ensures var r := MapData(employees, payroll)[i];
            r.net == r.base - r.inss3 && r.irt == 0.0 && r.inss3 + r.inss8 == r.base * 0.11
  {
  }

  datatype Totals = Totals(liquid: real, irt: real, inss: real)

  /** `totals`: the `reduce` over the rows; the INSS total takes both the 3%
      and the 8% share of each row. */
  function Footer(rows: seq<Row>): (t: Totals)
    ensures rows == [] ==> t == Totals(0.0, 0.0, 0.0)
    decreases |rows|
  {
    if rows == [] then Totals(0.0, 0.0, 0.0)
    else
      var acc := Footer(rows[..|rows| - 1]);
      var r := rows[|rows| - 1];
      Totals(acc.liquid + r.net, acc.irt + r.irt, acc.inss + r.inss3 + r.inss8)
  }

  function RowNet(r: Row): real { r.net }
  function RowIrt(r: Row): real { r.irt }
  function RowInss3(r: Row): real { r.inss3 }
  function RowInss8(r: Row): real { r.inss8 }

  /** Each footer figure is the sum of its column; the INSS figure is the sum
      of the employee column plus the sum of the employer column. */
  lemma {:induction false} FooterIsColumnSums(rows: seq<Row>)
    ensures Footer(rows) == Totals(Sum(rows, RowNet), Sum(rows, RowIrt),
                                   Sum(rows, RowInss3) + Sum(rows, RowInss8))
    decreases |rows|
  {
    if rows != [] {
      FooterIsColumnSums(rows[..|rows| - 1]);
    }
  }
}
