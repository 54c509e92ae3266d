/** The employee register of `Employees.tsx`: the list filter (search,
    status, department, "only completed files"), the new-record defaults, the
    save guard, the dismissal payload and which lifecycle action the row menu
    offers. */
module Employees {
  import opened Common
  import opened Staff

  /** The list's "active" test: status `Active`, `Readmitted` or `ativo`, and
      employment status other than `demitido`. */
  predicate IsActiveStatus(e: Employee)
  {
    (e.status == "Active" || e.status == "Readmitted" || e.status == "ativo")
    && e.employmentStatus != "demitido"
  }

  /** No record is both active and terminated. (Some, with another status such
      as `Suspended`, are neither.) */
  lemma ActiveExcludesTerminated(e: Employee)
    ensures !(IsActiveStatus(e) && IsTerminated(e))
  {
  }

  /** The status drop-down. */
  datatype StatusFilter = AllStatuses | ActiveOnly | InactiveOnly

  /** The filter bar: the search box, the status and department drop-downs
      (`department` is "ALL" or one department's name) and the "only completed
      files" switch. */
  datatype EmployeeQuery = EmployeeQuery(searchTerm: string, status: StatusFilter,
                                         department: string, onlyCompleted: bool)

  /** The search matches the name ignoring case, or a non-empty NIF or BI
      number containing the term exactly as typed. */
  predicate SearchMatch(e: Employee, term: string)
  {
    MatchesIgnoringCase(e.name, term)
    || (e.nif != "" && Includes(e.nif, term))
    || (e.biNumber != "" && Includes(e.biNumber, term))
  }

  predicate StatusMatch(e: Employee, f: StatusFilter)
  {
    match f
    case AllStatuses => true
    case ActiveOnly => IsActiveStatus(e)
    case InactiveOnly => IsTerminated(e)
  }

  /** A file is complete when it holds at least one personal document,
      occurrence or piece of equipment. */
  predicate IsCompleted(e: Employee)
  {
    e.personalDocs > 0 || e.occurrences > 0 || e.equipment > 0
  }

  predicate MatchesQuery(e: Employee, q: EmployeeQuery)
  {
    SearchMatch(e, q.searchTerm)
    && StatusMatch(e, q.status)
    && (q.department == "ALL" || e.department == q.department)
    && (!q.onlyCompleted || IsCompleted(e))
  }

  /** `filteredEmployees`: the rows shown, in register order. */
  function FilteredEmployees(employees: seq<Employee>, q: EmployeeQuery): (r: seq<Employee>)
    ensures IsSubsequence(r, employees)
    ensures forall e :: e in r <==> e in employees && MatchesQuery(e, q)
    ensures forall e :: multiset(r)[e] == if MatchesQuery(e, q) then multiset(employees)[e] else 0
  {
    FilterIsSubsequence(employees, (e: Employee) => MatchesQuery(e, q));
    FilterMultiplicity(employees, (e: Employee) => MatchesQuery(e, q));
    Filter(employees, (e: Employee) => MatchesQuery(e, q))
  }

  /** An empty search box, every department and the switch off: the status
      drop-down alone decides, keeping everyone, exactly the active records
      or exactly the terminated ones. */
  lemma StatusFilterSelects(employees: seq<Employee>, q: EmployeeQuery)
    requires q.searchTerm == "" && q.department == "ALL" && !q.onlyCompleted
    ensures q.status == AllStatuses ==> FilteredEmployees(employees, q) == employees
    ensures q.status == ActiveOnly ==> FilteredEmployees(employees, q) == Filter(employees, IsActiveStatus)
    ensures q.status == InactiveOnly ==> FilteredEmployees(employees, q) == Filter(employees, IsTerminated)
  {
    forall e | e in employees
      ensures MatchesQuery(e, q) == StatusMatch(e, q.status)
    {
      EmptyTermMatches(ToLower(e.name));
      assert ToLower("") == "";
    }
    var m := (e: Employee) => MatchesQuery(e, q);
    match q.status
    case AllStatuses => FilterKeepsAll(employees, m);
    case ActiveOnly => FilterCongruent(employees, m, IsActiveStatus);
    case InactiveOnly => FilterCongruent(employees, m, IsTerminated);
  }

  /** `handleCreate`: the blank form for a new hire, with the generated id and
      today's date passed in, status `Active`, every amount 0, no history and
      no documents. */
  function NewEmployee(id: string, today: int): (e: Employee)
    ensures e.id == id && e.admissionDate == today
    ensures e.status == "Active" && IsActiveStatus(e) && !IsTerminated(e)
    ensures e.baseSalary == 0.0 && e.complementSalary == 0.0
    ensures e.subsidyFood == 0.0 && e.subsidyTransport == 0.0 && e.subsidyFamily == 0.0
    ensures e.subsidyHousing == 0.0 && e.subsidyVacation == 0.0 && e.subsidyChristmas == 0.0
    ensures e.penalties == 0.0 && e.salaryAdjustments == 0.0
    ensures e.history == [] && !IsCompleted(e)
  {
    Employee(id, "", "", "", "", "", "", "", "", "Active", "", today, "",
             0.0, 0.0, 0.0, 0.0, 0.0, 0.0, 0.0, 0.0, 0.0, 0.0,
             "", "", "", 0, 0, 0, [], "", "", "", "", "", "", "")
  }

  /** `handleSave`: the form is handed on unchanged, or refused when the name,
      NIF or role is missing. */
  function Save(form: Employee): (r: Option<Employee>)
    ensures r.Some? <==> form.name != "" && form.nif != "" && form.role != ""
    ensures r.Some? ==> r.value == form
  {
    if form.name == "" || form.nif == "" || form.role == "" then None else Some(form)
  }

  /** A new hire's blank form is always refused until a name, NIF and role
      are typed in. */
  lemma BlankFormRefused(id: string, today: int)
    ensures Save(NewEmployee(id, today)).None?
  {
  }

  /** `handleDismiss` saves the same record as the HR screen's dismissal:
      refused on an incomplete form, otherwise terminated, one entry longer
      in its history, and with its id, name and pay unchanged. */
  lemma DismissalPayload(e: Employee, f: ActionForm)
    ensures Dismiss(e, f).Some? <==> FormComplete(f)
    ensures Dismiss(e, f).Some? ==>
              var d := Dismiss(e, f).value;
              IsTerminated(d) && !IsActiveStatus(d) && |d.history| == |e.history| + 1
              && d.history[..|e.history|] == e.history
              && d.id == e.id && d.name == e.name && d.baseSalary == e.baseSalary
  {
    if FormComplete(f) {
      var d := Dismiss(e, f).value;
      assert d.history == e.history + [HistoryEntry(f.date, "Demitido", f.reason, f.orderer)];
    }
  }

  /** The row menu offers "Readmitir" to a terminated record: status
      `Terminated` or employment status `demitido`. */
  predicate ReadmitVisible(e: Employee)
  {
    !(e.status != "Terminated" && e.employmentStatus != "demitido")
  }

  /** The row menu offers "Demitir" unless the record is `Terminated` or
      `demitido`. */
  predicate DismissVisible(e: Employee)
  {
    !(e.status == "Terminated" || e.employmentStatus == "demitido")
  }

  /** The menu always offers exactly one of the two lifecycle actions; a
      record with status `demitido` but another employment status counts as
      not dismissed here, unlike in the status filter. */
  lemma ExactlyOneLifecycleAction(e: Employee)
    ensures ReadmitVisible(e) != DismissVisible(e)
    ensures DismissVisible(e) ==> !IsTerminated(e) || (e.status == "demitido" && e.employmentStatus != "demitido")
  {
  }

  /** After a dismissal the menu offers readmission and after a readmission
      it offers dismissal. */
  lemma LifecycleMenuAlternates(e: Employee, f: ActionForm)
    requires FormComplete(f)
    ensures ReadmitVisible(Dismiss(e, f).value) && !DismissVisible(Dismiss(e, f).value)
    ensures DismissVisible(Rehire(e, f).value) && !ReadmitVisible(Rehire(e, f).value)
  {
  }
}
