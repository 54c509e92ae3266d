/** The employee record the HR screens share, and the two lifecycle updates
    `HumanResources.tsx` applies to it: dismissal and readmission. Optional
    text fields are "" when absent and optional amounts 0, which is how the
    source's `x || default` reads them. Dates are kept as the source's strings
    where they are only stored, and as day numbers where they are compared. */
module Staff {
  import opened Common

  /** One entry of the append-only lifecycle log. */
  datatype HistoryEntry = HistoryEntry(date: string, action: string, reason: string, orderer: string)

  datatype Employee = Employee(
    id: string,
    name: string,
    role: string,
    nif: string,
    biNumber: string,
    ssn: string,
    department: string,
    province: string,
    idnf: string,
    status: string,
    employmentStatus: string,
    admissionDate: int,
    terminationDate: string,
    baseSalary: real,
    complementSalary: real,
    subsidyFood: real,
    subsidyTransport: real,
    subsidyFamily: real,
    subsidyHousing: real,
    subsidyVacation: real,
    subsidyChristmas: real,
    penalties: real,
    salaryAdjustments: real,
    bankName: string,
    bankAccount: string,
    iban: string,
    personalDocs: nat,
    occurrences: nat,
    equipment: nat,
    history: seq<HistoryEntry>,
    dismissalDate: string,
    dismissedBy: string,
    dismissalReason: string,
    occurrence: string,
    rehireDate: string,
    rehireOrderer: string,
    rehireReason: string)

  /** The screens' "terminated" test: status `Terminated` or `demitido`, or
      employment status `demitido`. */
  predicate IsTerminated(e: Employee)
  {
    e.status == "Terminated" || e.employmentStatus == "demitido" || e.status == "demitido"
  }

  /** What the dismissal and readmission dialogs collect. */
  datatype ActionForm = ActionForm(date: string, orderer: string, reason: string, occurrence: string)

  /** Both dialogs refuse to proceed unless date, orderer and reason are filled. */
  predicate FormComplete(f: ActionForm)
  {
    f.date != "" && f.orderer != "" && f.reason != ""
  }

  /** The record `handleDismiss` saves: status `Terminated`, employment status
      `demitido`, the dismissal details, and one `Demitido` entry appended to
      the history; `None` when the form is incomplete. */
  function Dismiss(emp: Employee, f: ActionForm): (r: Option<Employee>)
    ensures r.Some? <==> FormComplete(f)
    ensures r.Some? ==> r.value.status == "Terminated" && r.value.employmentStatus == "demitido"
    ensures r.Some? ==> IsTerminated(r.value)
    ensures r.Some? ==> r.value.history == emp.history + [HistoryEntry(f.date, "Demitido", f.reason, f.orderer)]
    ensures r.Some? ==> r.value.dismissalDate == f.date && r.value.dismissedBy == f.orderer
                        && r.value.dismissalReason == f.reason && r.value.occurrence == f.occurrence
    // every other field is copied from the employee unchanged
    ensures r.Some? ==> r.value.(status := emp.status, employmentStatus := emp.employmentStatus,
                                 dismissalDate := emp.dismissalDate, dismissedBy := emp.dismissedBy,
                                 dismissalReason := emp.dismissalReason, occurrence := emp.occurrence,
                                 history := emp.history) == emp
  {
    if !FormComplete(f) then None
    else Some(emp.(status := "Terminated", employmentStatus := "demitido",
                   dismissalDate := f.date, dismissedBy := f.orderer,
                   dismissalReason := f.reason, occurrence := f.occurrence,
                   history := emp.history + [HistoryEntry(f.date, "Demitido", f.reason, f.orderer)]))
  }

  /** The record `handleRehireAction` saves: status `Readmitted`, employment
      status `ativo`, the readmission details, and one `Readmitido` entry
      appended; `None` when the form is incomplete. The stored dismissal date
      is kept in this record. */
  function Rehire(emp: Employee, f: ActionForm): (r: Option<Employee>)
    ensures r.Some? <==> FormComplete(f)
    ensures r.Some? ==> r.value.status == "Readmitted" && r.value.employmentStatus == "ativo"
    ensures r.Some? ==> !IsTerminated(r.value)
    ensures r.Some? ==> r.value.history == emp.history + [HistoryEntry(f.date, "Readmitido", f.reason, f.orderer)]
    ensures r.Some? ==> r.value.rehireDate == f.date && r.value.rehireOrderer == f.orderer
                        && r.value.rehireReason == f.reason
    ensures r.Some? ==> r.value.(status := emp.status, employmentStatus := emp.employmentStatus,
                                 rehireDate := emp.rehireDate, rehireOrderer := emp.rehireOrderer,
                                 rehireReason := emp.rehireReason, history := emp.history) == emp
  {
    if !FormComplete(f) then None
    else Some(emp.(status := "Readmitted", employmentStatus := "ativo",
                   rehireDate := f.date, rehireOrderer := f.orderer, rehireReason := f.reason,
                   history := emp.history + [HistoryEntry(f.date, "Readmitido", f.reason, f.orderer)]))
  }

  /** Dismissing and then readmitting leaves the history with exactly the two
      new entries at its end, in that order, and keeps the dismissal date. */
  lemma DismissThenRehire(emp: Employee, d: ActionForm, a: ActionForm)
    requires FormComplete(d) && FormComplete(a)
    ensures Dismiss(emp, d).Some? && Rehire(Dismiss(emp, d).value, a).Some?
    ensures var e := Rehire(Dismiss(emp, d).value, a).value;
            e.history == emp.history + [HistoryEntry(d.date, "Demitido", d.reason, d.orderer),
                                        HistoryEntry(a.date, "Readmitido", a.reason, a.orderer)]
            && e.dismissalDate == d.date && e.status == "Readmitted"
            && e.baseSalary == emp.baseSalary && e.id == emp.id
  {
    var e1 := Dismiss(emp, d).value;
    assert e1.history + [HistoryEntry(a.date, "Readmitido", a.reason, a.orderer)]
        == emp.history + [HistoryEntry(d.date, "Demitido", d.reason, d.orderer),
                          HistoryEntry(a.date, "Readmitido", a.reason, a.orderer)];
  }
}
