/** The salary listing of `SalaryListReport.tsx`: one row per employee with
    base pay and allowances from the employee's slip, and the computed total
    `totalVencimentos`, which also adds two fixed amounts of the sample line.
    The sheet does not display that total: its footer prints a fixed figure. */
module SalaryListReport {
  import opened Common
  import opened Staff
  import opened Payslip

  datatype Row = Row(idnf: nat, admissionDate: int, name: string, profession: string,
                     workplace: string, base: real, helps: real, total: real)

  /** The first slip of the employee, of any period. */
  function SlipOf(payroll: seq<SalarySlip>, emp: Employee): Option<SalarySlip>
  {
    Find(payroll, (s: SalarySlip) => s.employeeId == emp.id)
  }

  /** The base is the slip's base salary when there is a slip and it is not
      0, the employee's otherwise; the allowances come from the slip or are
      0; the row total adds the two. Length of service is not modelled. */
  function RowFor(emp: Employee, slip: Option<SalarySlip>, idx: nat): (r: Row)
    ensures r.idnf == idx + 2
    ensures r.base == if slip.Some? && slip.value.baseSalary != 0.0 then slip.value.baseSalary else emp.baseSalary
    ensures r.helps == if slip.Some? then slip.value.allowances else 0.0
    ensures r.total == r.base + r.helps
    ensures r.workplace != ""
  {
    var base := if slip.Some? then OrElse(slip.value.baseSalary, emp.baseSalary) else emp.baseSalary;
    var helps := if slip.Some? then slip.value.allowances else 0.0;
    Row(idx + 2, emp.admissionDate, emp.name, emp.role,
        if emp.department != "" then emp.department else "Obra Generica",
        base, helps, base + helps)
  }

  /** `reportData`: one row per employee in order, numbered from 2 because
      the printed sheet's line 1 is a sample line. */
  function ReportData(employees: seq<Employee>, payroll: seq<SalarySlip>): (rows: seq<Row>)
    ensures |rows| == |employees|
    ensures forall i :: 0 <= i < |rows| ==> rows[i] == RowFor(employees[i], SlipOf(payroll, employees[i]), i)
  {
    seq(|employees|, i requires 0 <= i < |employees| => RowFor(employees[i], SlipOf(payroll, employees[i]), i))
  }

  /** The two amounts of the sample line that the grand total adds. */
  const SampleAmounts: real := 20122.0 + 152333.0

  function RowTotal(r: Row): real { r.total }
  function RowBase(r: Row): real { r.base }
  function RowHelps(r: Row): real { r.helps }

  /** `totalVencimentos`, computed by the component but not rendered. */
  function TotalVencimentos(rows: seq<Row>): (total: real)
    ensures rows == [] ==> total == 172455.0
  {
    Sum(rows, RowTotal) + 20122.0 + 152333.0
  }

  /** The computed total is the base column plus the allowances column plus
      172 455 from the sample line, so for an empty listing it is 172 455. */
  lemma TotalSplitsByColumn(employees: seq<Employee>, payroll: seq<SalarySlip>)
    ensures var rows := ReportData(employees, payroll);
            TotalVencimentos(rows) == Sum(rows, RowBase) + Sum(rows, RowHelps) + SampleAmounts
    ensures employees == [] ==> TotalVencimentos(ReportData(employees, payroll)) == 172455.0
  {
    var rows := ReportData(employees, payroll);
    SumOfColumns(rows, RowBase, RowHelps, RowTotal);
  }
}
