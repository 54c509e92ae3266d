/** The social-security enrolment list of `InssList.tsx`: the employees whose
    status is literally `Active`, each with a total remuneration, and the
    count in the footer. */
module InssList {
  import opened Common
  import opened Staff

  predicate Listed(e: Employee)
  {
    e.status == "Active"
  }

  /** `activeEmployees`: readmitted and `ativo` records are not listed. */
  function ActiveEmployees(employees: seq<Employee>): (r: seq<Employee>)
    ensures IsSubsequence(r, employees)
    ensures forall e :: e in r <==> e in employees && e.status == "Active"
    ensures forall e :: multiset(r)[e] == if Listed(e) then multiset(employees)[e] else 0
  {
    FilterIsSubsequence(employees, Listed);
    FilterMultiplicity(employees, Listed);
    Filter(employees, Listed)
  }

  /** `vctTotal`: base salary plus the salary complement (0 when absent). */
  function VctTotal(e: Employee): (total: real)
    ensures total - e.baseSalary == e.complementSalary
  {
    e.baseSalary + e.complementSalary
  }

  /** The IDNF column shows the employee's own IDNF, or the row number. */
  datatype IdnfCell = Given(idnf: string) | Position(no: nat)

  function IdnfShown(e: Employee, idx: nat): (c: IdnfCell)
    ensures e.idnf != "" <==> c.Given?
    ensures c.Given? ==> c.idnf == e.idnf
    ensures c.Position? ==> c.no == idx + 1
  {
    if e.idnf != "" then Given(e.idnf) else Position(idx + 1)
  }

  /** The footer's count of active workers, which is the number of listed
      rows. */
  function ActiveCount(employees: seq<Employee>): (n: nat)
    ensures n == |ActiveEmployees(employees)| && n <= |employees|
  {
    |ActiveEmployees(employees)|
  }

  /** A record that is `Active` but has employment status `demitido` is still
      listed, and a `Readmitted` one never is. */
  lemma ListingIgnoresEmploymentStatus(employees: seq<Employee>, e: Employee)
    requires e in employees
    ensures e.status == "Active" ==> e in ActiveEmployees(employees)
    ensures e.status == "Readmitted" ==> e !in ActiveEmployees(employees)
  {
  }
}
