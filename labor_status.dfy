/** The consolidated employment-status view of `LaborStatus.tsx`: each
    record is classed as dismissed, readmitted or active, the list is
    narrowed by a search over name and role, a sub-view and an admission-date
    range, and each row shows a status label and, for a dismissed record, the
    readmission button. Dates are day numbers; an empty date box is `None`. */
module LaborStatus {
  import opened Common
  import opened Staff

  /** `isDemitido`: the same test as the other screens' "terminated". */
  predicate IsDemitido(e: Employee)
  {
    e.employmentStatus == "demitido" || e.status == "Terminated" || e.status == "demitido"
  }

  /** `isRea`: status `Readmitted`, whatever the employment status. */
  predicate IsRea(e: Employee)
  {
    e.status == "Readmitted"
  }

  /** `isAct`: status `Active` or `ativo` and not dismissed by employment
      status; a readmitted record is not counted here. */
  predicate IsAct(e: Employee)
  {
    (e.status == "Active" || e.status == "ativo") && e.employmentStatus != "demitido"
  }

  /** The three classes agree with the shared terminated test, and neither
      active nor readmitted-and-active records are ever dismissed. */
  lemma ClassesAreConsistent(e: Employee)
    ensures IsDemitido(e) <==> IsTerminated(e)
    ensures !(IsAct(e) && IsDemitido(e))
    ensures !(IsAct(e) && IsRea(e))
  {
  }

  datatype SubView = All | ActiveView | TerminatedView | ReadmittedView

  predicate ViewMatch(e: Employee, v: SubView)
  {
    match v
    case All => true
    case ActiveView => IsAct(e)
    case TerminatedView => IsDemitido(e)
    case ReadmittedView => IsRea(e)
  }

  /** An empty start or end box sets no bound; otherwise the admission day
      must lie on or after the start and on or before the end. */
  predicate InDateRange(admission: int, startDate: Option<int>, endDate: Option<int>)
  {
    (startDate.None? || admission >= startDate.value)
    && (endDate.None? || admission <= endDate.value)
  }

  predicate LaborMatch(e: Employee, term: string, v: SubView, startDate: Option<int>, endDate: Option<int>)
  {
    (MatchesIgnoringCase(e.name, term) || MatchesIgnoringCase(e.role, term))
    && ViewMatch(e, v)
    && InDateRange(e.admissionDate, startDate, endDate)
  }

  /** `filteredEmployees`: the rows shown, in input order; every row's
      admission day lies within the bounds that were set. */
  function FilteredEmployees(employees: seq<Employee>, term: string, v: SubView,
                             startDate: Option<int>, endDate: Option<int>): (r: seq<Employee>)
    ensures IsSubsequence(r, employees)
    ensures forall e :: e in r <==> e in employees && LaborMatch(e, term, v, startDate, endDate)
    ensures forall e :: multiset(r)[e] == if LaborMatch(e, term, v, startDate, endDate) then multiset(employees)[e] else 0
    ensures forall e :: e in r && startDate.Some? ==> startDate.value <= e.admissionDate
    ensures forall e :: e in r && endDate.Some? ==> e.admissionDate <= endDate.value
  {
    FilterIsSubsequence(employees, (e: Employee) => LaborMatch(e, term, v, startDate, endDate));
    FilterMultiplicity(employees, (e: Employee) => LaborMatch(e, term, v, startDate, endDate));
    Filter(employees, (e: Employee) => LaborMatch(e, term, v, startDate, endDate))
  }

  /** With an empty search and no dates the sub-view alone decides: `ALL`
      keeps every record, the others exactly the records of their class. */
  lemma SubViewSelects(employees: seq<Employee>, v: SubView)
    ensures v == All ==> FilteredEmployees(employees, "", v, None, None) == employees
    ensures v == ActiveView ==> FilteredEmployees(employees, "", v, None, None) == Filter(employees, IsAct)
    ensures v == TerminatedView ==> FilteredEmployees(employees, "", v, None, None) == Filter(employees, IsDemitido)
    ensures v == ReadmittedView ==> FilteredEmployees(employees, "", v, None, None) == Filter(employees, IsRea)
  {
    forall e | e in employees
      ensures LaborMatch(e, "", v, None, None) == ViewMatch(e, v)
    {
      EmptyTermMatches(ToLower(e.name));
      assert ToLower("") == "";
    }
    var m := (e: Employee) => LaborMatch(e, "", v, None, None);
    match v
    case All => FilterKeepsAll(employees, m);
    case ActiveView => FilterCongruent(employees, m, IsAct);
    case TerminatedView => FilterCongruent(employees, m, IsDemitido);
    case ReadmittedView => FilterCongruent(employees, m, IsRea);
  }

  /** The status badge: "Demitido" first, then "Readmitido", and "Ativo" for
      everything else. */
  function StatusLabel(e: Employee): (badge: string)
    ensures badge == "Demitido" <==> IsDemitido(e)
    ensures badge == "Readmitido" <==> IsRea(e) && !IsDemitido(e)
    ensures badge == "Ativo" <==> !IsDemitido(e) && !IsRea(e)
  {
    if IsDemitido(e) then "Demitido" else if IsRea(e) then "Readmitido" else "Ativo"
  }

  /** The "ordered by" column: who dismissed a dismissed record, who ordered
      the readmission of a readmitted one, "---" otherwise. */
  function OrderedBy(e: Employee): (who: string)
    ensures StatusLabel(e) == "Demitido" ==> who == e.dismissedBy
    ensures StatusLabel(e) == "Readmitido" ==> who == e.rehireOrderer
    ensures StatusLabel(e) == "Ativo" ==> who == "---"
  {
    if IsDemitido(e) then e.dismissedBy else if IsRea(e) then e.rehireOrderer else "---"
  }

  /** The readmission button appears on a row exactly when it is badged
      "Demitido". */
  predicate RehireOffered(e: Employee)
  {
    IsDemitido(e)
  }

  /** A dismissed record is badged "Demitido" with its dismisser and offered
      readmission; once readmitted it is badged "Readmitido" with the
      readmission's orderer and the button is gone. */
  lemma LifecycleLabels(e: Employee, d: ActionForm, a: ActionForm)
    requires FormComplete(d) && FormComplete(a)
    ensures var x := Dismiss(e, d).value;
            StatusLabel(x) == "Demitido" && OrderedBy(x) == d.orderer && RehireOffered(x)
    ensures var y := Rehire(Dismiss(e, d).value, a).value;
            StatusLabel(y) == "Readmitido" && OrderedBy(y) == a.orderer && !RehireOffered(y)
  {
  }
}
