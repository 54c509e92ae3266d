/** The payroll board of `HumanResources.tsx`: per-period effectiveness keys,
    manually entered absence counts, the slip list, the transfer orders and
    the cash-register postings a transfer makes, together with the bulk
    actions, the attendance dialog, the receipt, the transfer batch and the
    queries over them. */
module HumanResources {
  import opened Common
  import opened Tax
  import opened Staff
  import opened Payslip

  /** The effectiveness / manual-absence key `${id}-${month}-${year}`. Month
      and year print as hyphen-free digit strings, so the text names the triple
      uniquely and is kept here as the triple itself. */
  datatype PeriodKey = PeriodKey(employeeId: string, month: int, year: int)

  function SlipKey(s: SalarySlip): PeriodKey
  {
    PeriodKey(s.employeeId, s.month, s.year)
  }

  const Months: seq<string> := ["Janeiro", "Fevereiro", "Março", "Abril", "Maio", "Junho",
                                "Julho", "Agosto", "Setembro", "Outubro", "Novembro", "Dezembro"]

  /** `months[m - 1]` as it prints in a template string: "undefined" outside
      1..12. */
  function MonthName(m: int): (r: string)
    ensures 1 <= m <= 12 ==> r == Months[m - 1]
    ensures !(1 <= m <= 12) ==> r == "undefined"
  {
    if 1 <= m <= 12 then Months[m - 1] else "undefined"
  }

  /** The period label `${months[m - 1]}/${y}` of transfer orders, kept as its
      two parts. */
  datatype PeriodLabel = PeriodLabel(monthName: string, year: int)

  function Label(month: int, year: int): PeriodLabel
  {
    PeriodLabel(MonthName(month), year)
  }

  /** Within 1..12 the label names the period uniquely. */
  lemma LabelInjective(m1: int, y1: int, m2: int, y2: int)
    requires 1 <= m1 <= 12 && 1 <= m2 <= 12
    requires Label(m1, y1) == Label(m2, y2)
    ensures m1 == m2 && y1 == y2
  {
  }

  // ---------------------------------------------------------------------------
  // Queries

  /** `employees.find(e => e.id === id)`. */
  function FindEmployee(employees: seq<Employee>, id: string): (r: Option<Employee>)
    ensures r.None? <==> forall j :: 0 <= j < |employees| ==> employees[j].id != id
    ensures r.Some? ==> r.value.id == id && r.value in employees
    ensures r.Some? ==> exists k :: 0 <= k < |employees| && employees[k] == r.value
                                    && forall j :: 0 <= j < k ==> employees[j].id != id
  {
    Find(employees, (e: Employee) => e.id == id)
  }

  /** The employee the id names exists and is not terminated: the filter of
      `PROCESS_EFECTIVIDADE` and `PROCESS_SALARIO`. */
  predicate Eligible(employees: seq<Employee>, id: string)
  {
    var e := FindEmployee(employees, id);
    e.Some? && !IsTerminated(e.value)
  }

  /** `getProcessedSlip`: the first slip of that employee for that period. */
  function ProcessedSlip(payroll: seq<SalarySlip>, id: string, month: int, year: int): (r: Option<SalarySlip>)
    ensures r.Some? ==> r.value in payroll && SlipKey(r.value) == PeriodKey(id, month, year)
    ensures r.None? <==> forall s :: s in payroll ==> SlipKey(s) != PeriodKey(id, month, year)
    ensures r.Some? ==> exists k :: 0 <= k < |payroll| && payroll[k] == r.value
                                    && forall j :: 0 <= j < k ==> SlipKey(payroll[j]) != PeriodKey(id, month, year)
  {
    var r := Find(payroll, (s: SalarySlip) => s.employeeId == id && s.month == month && s.year == year);
    assert r.None? ==> forall s :: s in payroll ==> SlipKey(s) != PeriodKey(id, month, year) by {
      if r.None? {
        forall s | s in payroll ensures SlipKey(s) != PeriodKey(id, month, year) {
          var j :| 0 <= j < |payroll| && payroll[j] == s;
        }
      }
    }
    r
  }

  /** One line of a transfer order (its description text is not modelled). */
  datatype TransferItem = TransferItem(
    employeeName: string,
    bankName: string,
    accountNumber: string,
    iban: string,
    amount: real,
    grossAmount: real,
    discounts: real,
    idnf: string)

  datatype TransferOrder = TransferOrder(
    id: string,
    reference: string,
    date: string,
    totalAmount: real,
    totalCount: nat,
    items: seq<TransferItem>,
    cashRegisterId: string,
    period: PeriodLabel)

  /** `isPaid`: some order of the period has an item carrying the name of the
      employee the id names; false when no employee has that id. */
  predicate IsPaid(history: seq<TransferOrder>, employees: seq<Employee>, id: string, month: int, year: int)
  {
    var e := FindEmployee(employees, id);
    e.Some? &&
    exists o :: o in history && o.period == Label(month, year) &&
      exists it :: it in o.items && it.employeeName == e.value.name
  }

  /** Payment is recorded by name: once one employee is paid for a period, every
      other employee of the same name counts as paid too. */
  lemma IsPaidSharedByNamesakes(history: seq<TransferOrder>, employees: seq<Employee>,
                                id1: string, id2: string, month: int, year: int)
    requires IsPaid(history, employees, id1, month, year)
    requires FindEmployee(employees, id2).Some?
    requires FindEmployee(employees, id2).value.name == FindEmployee(employees, id1).value.name
    ensures IsPaid(history, employees, id2, month, year)
  {
  }

  /** Dashboard figures (`hrSummary`). */
  datatype HrSummary = HrSummary(
    totalEmployees: nat,
    activeEmployees: nat,
    terminatedEmployees: nat,
    totalBaseSalary: real,
    totalInss: real,
    processedSalaries: nat,
    totalPaid: real,
    pendingSalaries: int)

  /** The dashboard's own notion of active: status `Active` or `Readmitted`
      (not `ativo`) and employment status other than `demitido`. */
  predicate CountsAsActive(e: Employee)
  {
    (e.status == "Active" || e.status == "Readmitted") && e.employmentStatus != "demitido"
  }

  function PeriodSlips(payroll: seq<SalarySlip>, month: int, year: int): seq<SalarySlip>
  {
    Filter(payroll, (s: SalarySlip) => s.month == month && s.year == year)
  }

  function Summary(employees: seq<Employee>, payroll: seq<SalarySlip>, history: seq<TransferOrder>,
                   month: int, year: int): (r: HrSummary)
    ensures r.totalEmployees == |employees|
    ensures r.activeEmployees == |Filter(employees, CountsAsActive)|
    ensures r.terminatedEmployees == |Filter(employees, IsTerminated)|
    ensures r.processedSalaries == |PeriodSlips(payroll, month, year)|
    ensures r.activeEmployees + r.terminatedEmployees <= r.totalEmployees
    ensures r.processedSalaries <= |payroll|
    ensures r.pendingSalaries == r.activeEmployees - r.processedSalaries
    ensures r.totalInss == INSS(r.totalBaseSalary) + INSSEntity(r.totalBaseSalary)
  {
    var active := Filter(employees, CountsAsActive);
    var terminated := Filter(employees, IsTerminated);
    FilterDisjointCounts(employees, CountsAsActive, IsTerminated);
    var totalBase := Sum(active, (e: Employee) => e.baseSalary);
    var processed := |PeriodSlips(payroll, month, year)|;
    var period := Label(month, year);
    var paid := Sum(Filter(history, (o: TransferOrder) => o.period == period), (o: TransferOrder) => o.totalAmount);
    HrSummary(|employees|, |active|, |terminated|, totalBase, totalBase * 0.03 + totalBase * 0.08,
              processed, paid, |active| - processed)
  }

  /** Slips of the current period added to the payroll raise the dashboard's
      processed count by exactly their number. */
  lemma {:induction false} ProcessedCountGrows(payroll: seq<SalarySlip>, added: seq<SalarySlip>, month: int, year: int)
    requires forall s :: s in added ==> s.month == month && s.year == year
    ensures |PeriodSlips(payroll + added, month, year)| == |PeriodSlips(payroll, month, year)| + |added|
  {
    FilterAppend(payroll, added, (s: SalarySlip) => s.month == month && s.year == year);
    FilterKeepsAll(added, (s: SalarySlip) => s.month == month && s.year == year);
  }

  // ---------------------------------------------------------------------------
  // Bulk salary processing and clearing

  /** The manual absence count of a key, `manualAbsences[key] || 0`. */
  function AbsencesOf(manualAbsences: map<PeriodKey, real>, key: PeriodKey): real
  {
    if key in manualAbsences then manualAbsences[key] else 0.0
  }

  /** The selected ids `PROCESS_SALARIO` makes a slip for, in selection order:
      those naming a non-terminated employee whose effectiveness key for the
      period is present. */
  function ProcessableIds(employees: seq<Employee>, effectiveness: set<PeriodKey>,
                          ids: seq<string>, month: int, year: int): seq<string>
  {
    Filter(ids, (id: string) => Eligible(employees, id) && PeriodKey(id, month, year) in effectiveness)
  }

  lemma ProcessableIdsSnoc(employees: seq<Employee>, effectiveness: set<PeriodKey>,
                           ids: seq<string>, id: string, month: int, year: int)
    ensures ProcessableIds(employees, effectiveness, ids + [id], month, year)
            == ProcessableIds(employees, effectiveness, ids, month, year)
               + (if Eligible(employees, id) && PeriodKey(id, month, year) in effectiveness then [id] else [])
  {
    var p := (x: string) => Eligible(employees, x) && PeriodKey(x, month, year) in effectiveness;
    FilterAppend(ids, [id], p);
    assert Filter([id], p) == (if p(id) then [id] else []) by {
      assert [id][1..] == [];
    }
  }

  /** The slips `PROCESS_SALARIO` builds for the selected ids, in selection
      order: one for each id naming a non-terminated employee whose
      effectiveness key for the period is present, none for any other. */
  function MassSlips(employees: seq<Employee>, effectiveness: set<PeriodKey>,
                     manualAbsences: map<PeriodKey, real>, ids: seq<string>,
                     month: int, year: int): (r: seq<SalarySlip>)
    ensures |r| <= |ids|
    ensures forall s :: s in r ==>
              s.employeeId in ids && Eligible(employees, s.employeeId)
              && s.month == month && s.year == year
              && SlipKey(s) in effectiveness
              && SlipConsistent(s) && s.bonuses == 0.0 && s.advances == 0.0
    ensures forall s :: s in r ==>
              FindEmployee(employees, s.employeeId).Some?
              && s == MassSlip(FindEmployee(employees, s.employeeId).value, month, year,
                               AbsencesOf(manualAbsences, SlipKey(s)))
    ensures forall id :: id in ids && Eligible(employees, id) && PeriodKey(id, month, year) in effectiveness
              ==> exists s :: s in r && s.employeeId == id
    decreases |ids|
  {
    if ids == [] then []
    else
      var prefix := ids[..|ids| - 1];
      var id := ids[|ids| - 1];
      var key := PeriodKey(id, month, year);
      var emp := FindEmployee(employees, id);
      var rest := MassSlips(employees, effectiveness, manualAbsences, prefix, month, year);
      assert forall x :: x in prefix ==> x in ids;
      assert forall x :: x in ids ==> x in prefix || x == id;
      if emp.Some? && !IsTerminated(emp.value) && key in effectiveness then
        rest + [MassSlip(emp.value, month, year, AbsencesOf(manualAbsences, key))]
      else
        rest
  }

  /** Bulk processing makes exactly one slip per processable selected id, in
      selection order. */
  lemma {:induction false} MassSlipsFollowSelection(employees: seq<Employee>, effectiveness: set<PeriodKey>,
                                                    manualAbsences: map<PeriodKey, real>, ids: seq<string>,
                                                    month: int, year: int)
    ensures var r := MassSlips(employees, effectiveness, manualAbsences, ids, month, year);
            var g := ProcessableIds(employees, effectiveness, ids, month, year);
            |r| == |g| && forall i :: 0 <= i < |r| ==> r[i].employeeId == g[i]
    decreases |ids|
  {
    if ids != [] {
      var prefix := ids[..|ids| - 1];
      var id := ids[|ids| - 1];
      assert ids == prefix + [id];
      MassSlipsFollowSelection(employees, effectiveness, manualAbsences, prefix, month, year);
      ProcessableIdsSnoc(employees, effectiveness, prefix, id, month, year);
      var rest := MassSlips(employees, effectiveness, manualAbsences, prefix, month, year);
      var g := ProcessableIds(employees, effectiveness, prefix, month, year);
      var key := PeriodKey(id, month, year);
      var emp := FindEmployee(employees, id);
      if emp.Some? && !IsTerminated(emp.value) && key in effectiveness {
        var slip := MassSlip(emp.value, month, year, AbsencesOf(manualAbsences, key));
        assert MassSlips(employees, effectiveness, manualAbsences, ids, month, year) == rest + [slip];
        assert ProcessableIds(employees, effectiveness, ids, month, year) == g + [id];
        assert slip.employeeId == id;
      } else {
        assert MassSlips(employees, effectiveness, manualAbsences, ids, month, year) == rest;
        assert ProcessableIds(employees, effectiveness, ids, month, year) == g;
      }
    }
  }

  /** Whether `onClearPayroll` for one of `ids` and the period removes the slip. */
  predicate Cleared(s: SalarySlip, ids: set<string>, month: int, year: int)
  {
    s.employeeId in ids && s.month == month && s.year == year
  }

  /** The payroll with every slip of the given employees for the given period
      removed: `onClearPayroll` applied to each of them. */
  function WithoutPeriod(payroll: seq<SalarySlip>, ids: set<string>, month: int, year: int): (r: seq<SalarySlip>)
    ensures |r| <= |payroll|
    ensures forall s :: s in r <==> s in payroll && !Cleared(s, ids, month, year)
    ensures r == Filter(payroll, (s: SalarySlip) => !Cleared(s, ids, month, year))
    decreases |payroll|
  {
    if payroll == [] then []
    else
      var rest := WithoutPeriod(payroll[1..], ids, month, year);
      assert forall s :: s in payroll <==> s == payroll[0] || s in payroll[1..];
      if Cleared(payroll[0], ids, month, year) then rest else [payroll[0]] + rest
  }

  /** Clearing keeps the surviving slips in their original order. */
  lemma {:induction false} WithoutPeriodIsSubsequence(payroll: seq<SalarySlip>, ids: set<string>, month: int, year: int)
    ensures IsSubsequence(WithoutPeriod(payroll, ids, month, year), payroll)
    decreases |payroll|
  {
    if payroll != [] {
      WithoutPeriodIsSubsequence(payroll[1..], ids, month, year);
      if Cleared(payroll[0], ids, month, year) {
        SubsequenceOfTail(WithoutPeriod(payroll[1..], ids, month, year), payroll);
      }
    }
  }

  /** Clearing nobody changes nothing. */
  lemma {:induction false} WithoutNobody(payroll: seq<SalarySlip>, month: int, year: int)
    ensures WithoutPeriod(payroll, {}, month, year) == payroll
    decreases |payroll|
  {
    if payroll != [] {
      WithoutNobody(payroll[1..], month, year);
    }
  }

  /** Clearing one more employee after a set of them is clearing the larger set. */
  lemma {:induction false} WithoutPeriodStep(payroll: seq<SalarySlip>, ids: set<string>, id: string, month: int, year: int)
    ensures WithoutPeriod(WithoutPeriod(payroll, ids, month, year), {id}, month, year)
            == WithoutPeriod(payroll, ids + {id}, month, year)
    decreases |payroll|
  {
    if payroll != [] {
      WithoutPeriodStep(payroll[1..], ids, id, month, year);
      var rest := WithoutPeriod(payroll[1..], ids, month, year);
      if !Cleared(payroll[0], ids, month, year) {
        assert ([payroll[0]] + rest)[1..] == rest;
      }
    }
  }

  /** After a clear, none of the cleared employees has a slip for the period. */
  lemma ClearedHaveNoSlip(payroll: seq<SalarySlip>, ids: set<string>, id: string, month: int, year: int)
    requires id in ids
    ensures ProcessedSlip(WithoutPeriod(payroll, ids, month, year), id, month, year).None?
  {
  }

  /** The keys `PROCESS_EFECTIVIDADE` adds: the period's key of every selected
      id naming a non-terminated employee, and no other. */
  function EligibleKeys(employees: seq<Employee>, ids: seq<string>, month: int, year: int): (r: set<PeriodKey>)
    ensures forall k :: k in r <==>
              k.employeeId in ids && Eligible(employees, k.employeeId) && k.month == month && k.year == year
    ensures r == {} <==> forall id :: id in ids ==> !Eligible(employees, id)
  {
    var r := set id | id in ids && Eligible(employees, id) :: PeriodKey(id, month, year);
    assert forall id :: id in ids && Eligible(employees, id) ==> PeriodKey(id, month, year) in r;
    r
  }

  /** The ids of a selection, as a set. */
  function IdSet(ids: seq<string>): (r: set<string>)
    ensures forall id :: id in r <==> id in ids
  {
    set id | id in ids
  }

  lemma IdSetAppend(ids: seq<string>, id: string)
    ensures IdSet(ids + [id]) == IdSet(ids) + {id}
  {
  }

  function KeysOf(ids: seq<string>, month: int, year: int): set<PeriodKey>
  {
    set id | id in ids :: PeriodKey(id, month, year)
  }

  // ---------------------------------------------------------------------------
  // Transfer batch

  datatype CashRegister = CashRegister(id: string, name: string)

  /** The cash-register withdrawal recorded for one paid employee (date and
      company id are not modelled). */
  datatype CashMovement = CashMovement(value: real, movementType: string, cashId: string,
                                       reference: string, operatorName: string, origin: string)

  datatype TransferOutcome =
    | Transferred(order: TransferOrder)
    | NoCashRegister
    | UnprocessedSelection
    | MissingEmployee(position: nat)

  /** The register's name, or "Caixa Local" when it is unknown or unnamed. */
  function CashierName(registers: seq<CashRegister>, cashId: string): (r: string)
    ensures r != ""
    ensures (exists j :: 0 <= j < |registers| && registers[j].id == cashId) || r == "Caixa Local"
    ensures (forall j :: 0 <= j < |registers| ==> registers[j].id != cashId) ==> r == "Caixa Local"
    ensures forall k :: 0 <= k < |registers| && registers[k].id == cashId
                        && (forall j :: 0 <= j < k ==> registers[j].id != cashId) ==>
              r == (if registers[k].name != "" then registers[k].name else "Caixa Local")
  {
    var c := Find(registers, (c: CashRegister) => c.id == cashId);
    if c.Some? && c.value.name != "" then c.value.name else "Caixa Local"
  }

  function TransferItemFor(emp: Employee, slip: SalarySlip): (it: TransferItem)
    ensures it.employeeName == emp.name && it.idnf == emp.idnf
    ensures it.amount == slip.netTotal && it.grossAmount == slip.grossTotal
    ensures it.discounts == slip.inss + slip.irt + slip.advances
    ensures SlipConsistent(slip) ==> it.amount == it.grossAmount - it.discounts
    ensures it.bankName != "" && it.accountNumber != "" && it.iban != ""
  {
    TransferItem(
      employeeName := emp.name,
      bankName := if emp.bankName != "" then emp.bankName else "Pagamento em Mão",
      accountNumber := if emp.bankAccount != "" then emp.bankAccount else "---",
      iban := if emp.iban != "" then emp.iban else "---",
      amount := slip.netTotal,
      grossAmount := slip.grossTotal,
      discounts := slip.inss + slip.irt + slip.advances,
      idnf := emp.idnf)
  }

  function PostingFor(emp: Employee, slip: SalarySlip, cashId: string): (m: CashMovement)
    ensures m.value == slip.netTotal && m.cashId == cashId && m.movementType == "saída"
  {
    CashMovement(slip.netTotal, "saída", cashId,
                 "TRANSF-" + (if emp.idnf != "" then emp.idnf else "EMP"), "RH System", "RH")
  }

  /** Every id has a slip for the period: the check `executeTransfer` makes
      before any write. */
  predicate AllProcessed(payroll: seq<SalarySlip>, ids: seq<string>, month: int, year: int)
  {
    forall id :: id in ids ==> ProcessedSlip(payroll, id, month, year).Some?
  }

  /** Every id names an employee and has a slip for the period. */
  predicate Payable(employees: seq<Employee>, payroll: seq<SalarySlip>, ids: seq<string>, month: int, year: int)
  {
    forall id :: id in ids ==>
      FindEmployee(employees, id).Some? && ProcessedSlip(payroll, id, month, year).Some?
  }

  function TransferItems(employees: seq<Employee>, payroll: seq<SalarySlip>, ids: seq<string>,
                         month: int, year: int): (r: seq<TransferItem>)
    requires Payable(employees, payroll, ids, month, year)
    ensures |r| == |ids|
    decreases |ids|
  {
    if ids == [] then []
    else
      var id := ids[|ids| - 1];
      TransferItems(employees, payroll, ids[..|ids| - 1], month, year)
      + [TransferItemFor(FindEmployee(employees, id).value, ProcessedSlip(payroll, id, month, year).value)]
  }

  function Postings(employees: seq<Employee>, payroll: seq<SalarySlip>, ids: seq<string>,
                    month: int, year: int, cashId: string): (r: seq<CashMovement>)
    requires Payable(employees, payroll, ids, month, year)
    ensures |r| == |ids|
    decreases |ids|
  {
    if ids == [] then []
    else
      var id := ids[|ids| - 1];
      Postings(employees, payroll, ids[..|ids| - 1], month, year, cashId)
      + [PostingFor(FindEmployee(employees, id).value, ProcessedSlip(payroll, id, month, year).value, cashId)]
  }

  /** One more payable id extends the items and the postings by its own. */
  lemma TransferStep(employees: seq<Employee>, payroll: seq<SalarySlip>, ids: seq<string>, i: nat,
                     month: int, year: int, cashId: string)
    requires i < |ids|
    requires Payable(employees, payroll, ids[..i], month, year)
    requires FindEmployee(employees, ids[i]).Some? && ProcessedSlip(payroll, ids[i], month, year).Some?
    ensures Payable(employees, payroll, ids[..i + 1], month, year)
    ensures TransferItems(employees, payroll, ids[..i + 1], month, year)
            == TransferItems(employees, payroll, ids[..i], month, year)
               + [TransferItemFor(FindEmployee(employees, ids[i]).value, ProcessedSlip(payroll, ids[i], month, year).value)]
    ensures Postings(employees, payroll, ids[..i + 1], month, year, cashId)
            == Postings(employees, payroll, ids[..i], month, year, cashId)
               + [PostingFor(FindEmployee(employees, ids[i]).value, ProcessedSlip(payroll, ids[i], month, year).value, cashId)]
  {
    assert ids[..i + 1] == ids[..i] + [ids[i]];
    assert ids[..i + 1][..i] == ids[..i];
  }

  /** The net pay of an employee's slip for the period, 0 without one. */
  function NetOf(payroll: seq<SalarySlip>, id: string, month: int, year: int): real
  {
    var s := ProcessedSlip(payroll, id, month, year);
    if s.Some? then s.value.netTotal else 0.0
  }

  /** `totalNetToPay`. */
  function TotalNet(payroll: seq<SalarySlip>, ids: seq<string>, month: int, year: int): real
  {
    Sum(ids, (id: string) => NetOf(payroll, id, month, year))
  }

  /** The order's total is the sum of its items' amounts. */
  lemma {:induction false} TotalNetIsSumOfItems(employees: seq<Employee>, payroll: seq<SalarySlip>,
                                                ids: seq<string>, month: int, year: int)
    requires Payable(employees, payroll, ids, month, year)
    ensures TotalNet(payroll, ids, month, year)
            == Sum(TransferItems(employees, payroll, ids, month, year), (it: TransferItem) => it.amount)
    decreases |ids|
  {
    if ids != [] {
      var prefix := ids[..|ids| - 1];
      assert forall x :: x in prefix ==> x in ids;
      TotalNetIsSumOfItems(employees, payroll, prefix, month, year);
      var items := TransferItems(employees, payroll, ids, month, year);
      assert items[..|items| - 1] == TransferItems(employees, payroll, prefix, month, year);
    }
  }

  /** Every item of a transfer carries the name of the employee its id names. */
  lemma {:induction false} TransferItemsNameEmployees(employees: seq<Employee>, payroll: seq<SalarySlip>,
                                                      ids: seq<string>, month: int, year: int, i: nat)
    requires Payable(employees, payroll, ids, month, year)
    requires i < |ids|
    ensures TransferItems(employees, payroll, ids, month, year)[i].employeeName
            == FindEmployee(employees, ids[i]).value.name
    ensures TransferItems(employees, payroll, ids, month, year)[i].amount
            == ProcessedSlip(payroll, ids[i], month, year).value.netTotal
    decreases |ids|
  {
    var prefix := ids[..|ids| - 1];
    assert forall x :: x in prefix ==> x in ids;
    if i < |ids| - 1 {
      TransferItemsNameEmployees(employees, payroll, prefix, month, year, i);
    }
  }

  /** After a transfer order is saved, every employee it paid is reported as
      paid for the period. */
  lemma TransferMarksPaid(history: seq<TransferOrder>, order: TransferOrder, employees: seq<Employee>,
                          payroll: seq<SalarySlip>, ids: seq<string>, month: int, year: int, id: string)
    requires Payable(employees, payroll, ids, month, year)
    requires order.items == TransferItems(employees, payroll, ids, month, year)
    requires order.period == Label(month, year)
    requires id in ids
    ensures IsPaid(history + [order], employees, id, month, year)
  {
    var i :| 0 <= i < |ids| && ids[i] == id;
    TransferItemsNameEmployees(employees, payroll, ids, month, year, i);
    assert order.items[i] in order.items;
    assert order in history + [order];
  }

  // ---------------------------------------------------------------------------
  // The board

  /** The component's per-period state together with the lists its parent
      keeps for it (`payroll`, `transferHistory`) and the cash-register log.
      `pending` is the receipt dialog's data while it is open.

      Slips loaded with the board were made in an earlier session, before this
      session's effectiveness set (which starts empty) existed; `loaded`
      remembers them. Every other slip was built here, so it is internally
      consistent and its period's effectiveness was processed. */
  class PayrollBoard {
    var employees: seq<Employee>
    var month: int
    var year: int
    var effectiveness: set<PeriodKey>
    var manualAbsences: map<PeriodKey, real>
    var payroll: seq<SalarySlip>
    var transferHistory: seq<TransferOrder>
    var ledger: seq<CashMovement>
    var pending: Option<ReceiptData>
    ghost var loaded: seq<SalarySlip>

    ghost predicate Valid()
      reads this`payroll, this`loaded, this`effectiveness, this`pending
    {
      (forall s :: s in payroll && s !in loaded ==> SlipConsistent(s) && SlipKey(s) in effectiveness)
      && (pending.Some? ==>
            PeriodKey(pending.value.emp.id, pending.value.month, pending.value.year) in effectiveness)
    }

    constructor(employees: seq<Employee>, payroll: seq<SalarySlip>, transferHistory: seq<TransferOrder>,
                month: int, year: int)
      ensures Valid()
      ensures this.employees == employees && this.payroll == payroll
      ensures this.transferHistory == transferHistory
      ensures this.month == month && this.year == year
      ensures effectiveness == {} && manualAbsences == map[] && ledger == [] && pending == None
    {
      this.employees := employees;
      this.month := month;
      this.year := year;
      effectiveness := {};
      manualAbsences := map[];
      this.payroll := payroll;
      this.transferHistory := transferHistory;
      ledger := [];
      pending := None;
      loaded := payroll;
    }

    /** `PROCESS_EFECTIVIDADE`: marks the period done for every selected id that
      names a non-terminated employee; with none, nothing changes. */
    method ProcessEffectiveness(selected: seq<string>) returns (processed: bool)
      requires Valid()
      modifies this`effectiveness
      ensures Valid()
      ensures processed <==> EligibleKeys(employees, selected, month, year) != {}
      ensures effectiveness == old(effectiveness) + EligibleKeys(employees, selected, month, year)
    {
      var keys := EligibleKeys(employees, selected, month, year);
      if keys == {} {
        return false;
      }
      effectiveness := effectiveness + keys;
      return true;
    }

    /** `DELETE_EFECTIVIDADE`: once confirmed, removes the period's key of every
      selected employee and clears their slips for the period. Manual absence
      counts stay, and nothing checks whether the period was already paid. */
    method DeleteEffectiveness(selected: seq<string>, confirmed: bool)
      requires Valid() && pending.None?
      modifies this`effectiveness, this`payroll
      ensures Valid()
      ensures selected == [] || !confirmed ==>
                effectiveness == old(effectiveness) && payroll == old(payroll)
      ensures selected != [] && confirmed ==>
                effectiveness == old(effectiveness) - KeysOf(selected, month, year)
                && payroll == WithoutPeriod(old(payroll), IdSet(selected), month, year)
    {
      if selected == [] || !confirmed {
        return;
      }
      var keys := effectiveness;
      var remaining := payroll;
      WithoutNobody(remaining, month, year);
      assert IdSet(selected[..0]) == {};
      var i := 0;
      while i < |selected|
        invariant 0 <= i <= |selected|
        invariant keys == old(effectiveness) - KeysOf(selected[..i], month, year)
        invariant remaining == WithoutPeriod(old(payroll), IdSet(selected[..i]), month, year)
      {
        var id := selected[i];
        assert selected[..i + 1] == selected[..i] + [id];
        keys := keys - {PeriodKey(id, month, year)};
        WithoutPeriodStep(old(payroll), IdSet(selected[..i]), id, month, year);
        IdSetAppend(selected[..i], id);
        remaining := WithoutPeriod(remaining, {id}, month, year);
        i := i + 1;
      }
      assert selected[..i] == selected;
      payroll := remaining;
      effectiveness := keys;
    }

    /** `PROCESS_SALARIO`: appends a bulk-recipe slip for every selected,
      non-terminated employee whose effectiveness for the period is done, and
      silently skips the rest. */
    method ProcessSalary(selected: seq<string>) returns (count: nat)
      requires Valid()
      modifies this`payroll
      ensures Valid()
      ensures payroll == old(payroll)
                         + MassSlips(employees, effectiveness, manualAbsences, selected, month, year)
      ensures count == |MassSlips(employees, effectiveness, manualAbsences, selected, month, year)|
    {
      var slips: seq<SalarySlip> := [];
      var i := 0;
      while i < |selected|
        invariant 0 <= i <= |selected|
        invariant slips == MassSlips(employees, effectiveness, manualAbsences, selected[..i], month, year)
      {
        var id := selected[i];
        assert selected[..i + 1][..i] == selected[..i];
        var emp := FindEmployee(employees, id);
        if emp.Some? && !IsTerminated(emp.value) {
          var key := PeriodKey(id, month, year);
          if key in effectiveness {
            var faltas := if key in manualAbsences then manualAbsences[key] else 0.0;
            slips := slips + [MassSlip(emp.value, month, year, faltas)];
          }
        }
        i := i + 1;
      }
      assert selected[..i] == selected;
      payroll := payroll + slips;
      count := |slips|;
    }

    /** `DELETE_SALARIO`: once confirmed, clears the selected employees' slips
      for the period; their effectiveness keys stay. */
    method DeleteSalary(selected: seq<string>, confirmed: bool)
      requires Valid()
      modifies this`payroll
      ensures Valid()
      ensures selected == [] || !confirmed ==> payroll == old(payroll)
      ensures selected != [] && confirmed ==>
                payroll == WithoutPeriod(old(payroll), IdSet(selected), month, year)
    {
      if selected == [] || !confirmed {
        return;
      }
      var remaining := payroll;
      WithoutNobody(remaining, month, year);
      assert IdSet(selected[..0]) == {};
      var i := 0;
      while i < |selected|
        invariant 0 <= i <= |selected|
        invariant remaining == WithoutPeriod(old(payroll), IdSet(selected[..i]), month, year)
      {
        var id := selected[i];
        assert selected[..i + 1] == selected[..i] + [id];
        WithoutPeriodStep(old(payroll), IdSet(selected[..i]), id, month, year);
        IdSetAppend(selected[..i], id);
        remaining := WithoutPeriod(remaining, {id}, month, year);
        i := i + 1;
      }
      assert selected[..i] == selected;
      payroll := remaining;
    }

    /** Whether an employee's row is locked for the period: the employee is
      dismissed, or already has a slip. The row's absence entry and its
      attendance buttons are disabled then. */
    predicate RowLocked(emp: Employee)
      reads this`payroll, this`month, this`year
    {
      IsTerminated(emp) || ProcessedSlip(payroll, emp.id, month, year).Some?
    }

    /** The absence count typed into an employee's row for the period; the
      entry is disabled on a locked row, so nothing changes there. */
    method SetManualAbsence(emp: Employee, value: real)
      requires Valid()
      modifies this`manualAbsences
      ensures Valid()
      ensures RowLocked(emp) ==> manualAbsences == old(manualAbsences)
      ensures !RowLocked(emp) ==>
                manualAbsences == old(manualAbsences)[PeriodKey(emp.id, month, year) := value]
    {
      if RowLocked(emp) {
        return;
      }
      manualAbsences := manualAbsences[PeriodKey(emp.id, month, year) := value];
    }

    /** The attendance dialog's confirmation for `emp`: the period's key is
      marked done, its manual absence count recorded, and the receipt opened
      with the employee's base salary, the manual food and transport amounts
      and that absence count. The row's buttons open the dialog only when the
      row is not locked; on a locked row nothing changes. */
    method ConfirmAttendance(emp: Employee, attendanceDetails: map<int, string>,
                             subsAlim: real, subsTrans: real, manualFaltas: real)
      requires Valid()
      modifies this`effectiveness, this`manualAbsences, this`pending
      ensures Valid()
      ensures RowLocked(emp) ==>
                effectiveness == old(effectiveness) && manualAbsences == old(manualAbsences)
                && pending == old(pending)
      ensures !RowLocked(emp) ==>
                effectiveness == old(effectiveness) + {PeriodKey(emp.id, month, year)}
                && manualAbsences == old(manualAbsences)[PeriodKey(emp.id, month, year) := manualFaltas]
                && pending == Some(ReceiptData(emp, month, year, emp.baseSalary, manualFaltas,
                                               subsAlim, subsTrans, attendanceDetails, Some(manualFaltas)))
    {
      if RowLocked(emp) {
        return;
      }
      var key := PeriodKey(emp.id, month, year);
      effectiveness := effectiveness + {key};
      manualAbsences := manualAbsences[key := manualFaltas];
      pending := Some(ReceiptData(emp, month, year, emp.baseSalary, manualFaltas,
                                  subsAlim, subsTrans, attendanceDetails, Some(manualFaltas)));
    }

    /** The receipt's "process" button, with whatever values the operator left
      on it: the slip is appended and the dialog closes. */
    method CommitReceipt(values: ReceiptValues)
      requires Valid() && pending.Some?
      modifies this`payroll, this`pending
      ensures Valid()
      ensures payroll == old(payroll) + [ReceiptSlip(old(pending).value, values)]
      ensures pending == None
    {
      payroll := payroll + [ReceiptSlip(pending.value, values)];
      pending := None;
    }

    /** The receipt's close button: nothing is stored. */
    method CloseReceipt()
      requires Valid()
      modifies this`pending
      ensures Valid()
      ensures pending == None
    {
      pending := None;
    }

    /** The item-building loop of `executeTransfer`: for each selected id in
      turn, one item built and one withdrawal posted, stopping at the first id
      that names no employee. The postings are appended to the log together. */
    method PostWithdrawals(selected: seq<string>, cashId: string)
      returns (items: seq<TransferItem>, stoppedAt: Option<nat>)
      requires AllProcessed(payroll, selected, month, year)
      modifies this`ledger
      ensures stoppedAt.None? ==>
                Payable(employees, payroll, selected, month, year)
                && items == TransferItems(employees, payroll, selected, month, year)
                && ledger == old(ledger) + Postings(employees, payroll, selected, month, year, cashId)
      ensures stoppedAt.Some? ==>
                stoppedAt.value < |selected|
                && FindEmployee(employees, selected[stoppedAt.value]).None?
                && Payable(employees, payroll, selected[..stoppedAt.value], month, year)
                && ledger == old(ledger) + Postings(employees, payroll, selected[..stoppedAt.value], month, year, cashId)
    {
      var es, pr, m, y := employees, payroll, month, year;
      var posted: seq<CashMovement> := [];
      items := [];
      var i := 0;
      while i < |selected|
        invariant 0 <= i <= |selected|
        invariant Payable(es, pr, selected[..i], m, y)
        invariant items == TransferItems(es, pr, selected[..i], m, y)
        invariant posted == Postings(es, pr, selected[..i], m, y, cashId)
        invariant ledger == old(ledger)
      {
        var id := selected[i];
        var emp := FindEmployee(es, id);
        if emp.None? {
          ledger := ledger + posted;
          return items, Some(i);
        }
        var slip := ProcessedSlip(pr, id, m, y);
        TransferStep(es, pr, selected, i, m, y, cashId);
        items := items + [TransferItemFor(emp.value, slip.value)];
        posted := posted + [PostingFor(emp.value, slip.value, cashId)];
        i := i + 1;
      }
      assert selected[..i] == selected;
      ledger := ledger + posted;
      return items, None;
    }

    /** `executeTransfer`: refuses without a cash register, refuses before any
      write when a selected employee has no slip for the period, and otherwise
      posts one withdrawal per employee and saves one order whose total is the
      sum of the net pays. An id naming no employee stops the batch at that
      position with the earlier postings made and no order saved. */
    method ExecuteTransfer(selected: seq<string>, cashId: string, registers: seq<CashRegister>,
                           orderId: string, reference: string, date: string)
      returns (outcome: TransferOutcome)
      modifies this`transferHistory, this`ledger
      ensures cashId == "" <==> outcome == NoCashRegister
      ensures outcome == UnprocessedSelection <==> cashId != "" && !AllProcessed(payroll, selected, month, year)
      ensures outcome.NoCashRegister? || outcome.UnprocessedSelection? ==>
                ledger == old(ledger) && transferHistory == old(transferHistory)
      ensures outcome.MissingEmployee? ==>
                outcome.position < |selected|
                && FindEmployee(employees, selected[outcome.position]).None?
                && Payable(employees, payroll, selected[..outcome.position], month, year)
                && ledger == old(ledger) + Postings(employees, payroll, selected[..outcome.position], month, year, cashId)
                && transferHistory == old(transferHistory)
      ensures outcome.Transferred? ==>
                Payable(employees, payroll, selected, month, year)
                && outcome.order == TransferOrder(orderId, reference, date, TotalNet(payroll, selected, month, year),
                                                  |selected|, TransferItems(employees, payroll, selected, month, year),
                                                  CashierName(registers, cashId), Label(month, year))
                && transferHistory == old(transferHistory) + [outcome.order]
                && ledger == old(ledger) + Postings(employees, payroll, selected, month, year, cashId)
    {
      if cashId == "" {
        return NoCashRegister;
      }
      if !AllProcessed(payroll, selected, month, year) {
        return UnprocessedSelection;
      }
      var total := TotalNet(payroll, selected, month, year);
      var cashierName := CashierName(registers, cashId);
      var items, stoppedAt := PostWithdrawals(selected, cashId);
      if stoppedAt.Some? {
        return MissingEmployee(stoppedAt.value);
      }
      var order := TransferOrder(orderId, reference, date, total, |items|, items, cashierName, Label(month, year));
      transferHistory := transferHistory + [order];
      return Transferred(order);
    }
  }
}
