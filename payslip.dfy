/** The two gross-to-net recipes of `HumanResources.tsx` and the salary slip
    each of them builds: the interactive receipt (`SalaryReceipt`), whose every
    line the operator may edit, and the bulk `PROCESS_SALARIO` action, which
    takes four subsidies only and no bonus, adjustment, penalty or advance. */
module Payslip {
  import opened Common
  import opened Tax
  import opened Staff

  /** The stored salary slip (`SalarySlip`). */
  datatype SalarySlip = SalarySlip(
    employeeId: string,
    employeeName: string,
    employeeRole: string,
    baseSalary: real,
    allowances: real,
    bonuses: real,
    subsidies: real,
    subsidyFood: real,
    subsidyTransport: real,
    subsidyFamily: real,
    subsidyHousing: real,
    absences: real,
    advances: real,
    grossTotal: real,
    inss: real,
    irt: real,
    netTotal: real,
    month: int,
    year: int,
    isProcessed: bool,
    attendanceDetails: Option<map<int, string>>)

  /** JavaScript's `a || b` on numbers: `a` unless it is 0. */
  function OrElse(a: real, b: real): real
  {
    if a != 0.0 then a else b
  }

  /** A slip whose deductions can be re-derived from its own stored fields:
      INSS is 3% of the pay before subsidies (`grossTotal - subsidies`), IRT is
      the bracket tax of the gross after that INSS, and the net is the gross
      less INSS, IRT and advances. */
  predicate SlipConsistent(s: SalarySlip)
  {
    s.inss == INSS(s.grossTotal - s.subsidies)
    && s.irt == IRT(s.grossTotal, s.inss)
    && s.netTotal == s.grossTotal - s.inss - s.irt - s.advances
  }

  /** `absenceVal`: a day's pay taken as a thirtieth of the base salary,
      whatever the length of the month. */
  function AbsenceDeduction(baseSalary: real, absences: real): real
  {
    (baseSalary / 30.0) * absences
  }

  // ---------------------------------------------------------------------------
  // Interactive receipt

  /** What the attendance dialog hands to the receipt (`receiptData`). */
  datatype ReceiptData = ReceiptData(
    emp: Employee,
    month: int,
    year: int,
    baseSalary: real,
    hoursAbsence: real,
    subsAlimManual: real,
    subsTransManual: real,
    attendanceDetails: map<int, string>,
    manualFaltas: Option<real>)

  /** The receipt's editable lines (`editableValues`). */
  datatype ReceiptValues = ReceiptValues(
    baseSalary: real,
    complement: real,
    bonus: real,
    subsidyFood: real,
    subsidyTransport: real,
    subsidyHousing: real,
    subsidyVacation: real,
    subsidyChristmas: real,
    subsidyFamily: real,
    absences: real,
    justifiedAbsences: real,
    advances: real,
    penalties: real,
    adjustments: real)

  /** The receipt's opening values: the period's manual base salary and
      food/transport amounts where they are non-zero, else the employee's
      standing amounts; the manual absence count when one was given; no bonus,
      justified absences or advances. */
  function InitialValues(data: ReceiptData): (v: ReceiptValues)
    ensures v.bonus == 0.0 && v.advances == 0.0 && v.justifiedAbsences == 0.0
    ensures v.baseSalary == (if data.baseSalary != 0.0 then data.baseSalary else data.emp.baseSalary)
    ensures v.subsidyFood == (if data.subsAlimManual != 0.0 then data.subsAlimManual else data.emp.subsidyFood)
    ensures v.subsidyTransport == (if data.subsTransManual != 0.0 then data.subsTransManual else data.emp.subsidyTransport)
    ensures data.manualFaltas.Some? ==> v.absences == data.manualFaltas.value
    ensures data.manualFaltas.None? ==> v.absences == data.hoursAbsence
    // the other lines open with the employee's standing amounts
    ensures v.complement == data.emp.complementSalary
    ensures v.subsidyHousing == data.emp.subsidyHousing && v.subsidyFamily == data.emp.subsidyFamily
    ensures v.subsidyVacation == data.emp.subsidyVacation && v.subsidyChristmas == data.emp.subsidyChristmas
    ensures v.penalties == data.emp.penalties && v.adjustments == data.emp.salaryAdjustments
  {
    var e := data.emp;
    ReceiptValues(
      baseSalary := OrElse(data.baseSalary, OrElse(e.baseSalary, 0.0)),
      complement := OrElse(e.complementSalary, 0.0),
      bonus := 0.0,
      subsidyFood := OrElse(data.subsAlimManual, OrElse(e.subsidyFood, 0.0)),
      subsidyTransport := OrElse(data.subsTransManual, OrElse(e.subsidyTransport, 0.0)),
      subsidyHousing := OrElse(e.subsidyHousing, 0.0),
      subsidyVacation := OrElse(e.subsidyVacation, 0.0),
      subsidyChristmas := OrElse(e.subsidyChristmas, 0.0),
      subsidyFamily := OrElse(e.subsidyFamily, 0.0),
      absences := if data.manualFaltas.Some? then data.manualFaltas.value else OrElse(data.hoursAbsence, 0.0),
      justifiedAbsences := 0.0,
      advances := 0.0,
      penalties := OrElse(e.penalties, 0.0),
      adjustments := OrElse(e.salaryAdjustments, 0.0))
  }

  /** The intermediate figures `calculatedData` shows on the receipt. */
  datatype ReceiptTotals = ReceiptTotals(
    absenceVal: real,
    totalBaseIliquido: real,
    inss: real,
    totalVencimentoAntesImpostos: real,
    irt: real,
    netTotal: real)

  function SubsidiesTotal(v: ReceiptValues): real
  {
    v.subsidyFood + v.subsidyTransport + v.subsidyHousing
    + v.subsidyVacation + v.subsidyChristmas + v.subsidyFamily
  }

  function CalculateReceipt(v: ReceiptValues): (t: ReceiptTotals)
    ensures t.absenceVal == 0.0 <==> v.baseSalary == 0.0 || v.absences == 0.0
    ensures t.inss == INSS(t.totalBaseIliquido)
    ensures t.totalVencimentoAntesImpostos == t.totalBaseIliquido + SubsidiesTotal(v)
    ensures t.irt >= 0.0
    ensures v.advances >= 0.0 ==> t.netTotal <= t.totalVencimentoAntesImpostos - t.inss
  {
    var absenceVal := AbsenceDeduction(v.baseSalary, v.absences);
    var totalBaseIliquido := v.baseSalary + v.complement - absenceVal + v.bonus + v.adjustments - v.penalties;
    var inss := INSS(totalBaseIliquido);
    var gross := totalBaseIliquido + SubsidiesTotal(v);
    var irt := IRT(gross, inss);
    ReceiptTotals(absenceVal, totalBaseIliquido, inss, gross, irt, gross - inss - irt - v.advances)
  }

  /** `handleProcessFinal`: the slip the receipt stores. Its gross is the
      pre-tax total including all six subsidies, its `subsidies` field is that
      gross less the base pay, its INSS is taken on the base pay only and its
      IRT on the whole gross; vacation and Christmas subsidies are counted in
      `subsidies` but not itemised. */
  function ReceiptSlip(data: ReceiptData, v: ReceiptValues): (s: SalarySlip)
    ensures SlipConsistent(s)
    ensures s.grossTotal - s.subsidies
            == v.baseSalary + v.complement - AbsenceDeduction(v.baseSalary, v.absences)
               + v.bonus + v.adjustments - v.penalties
    ensures s.subsidies == s.subsidyFood + s.subsidyTransport + s.subsidyFamily + s.subsidyHousing
                           + v.subsidyVacation + v.subsidyChristmas
    ensures s.employeeId == data.emp.id && s.month == data.month && s.year == data.year && s.isProcessed
    ensures s.baseSalary == v.baseSalary && s.allowances == v.complement && s.bonuses == v.bonus
    ensures s.absences == v.absences && s.advances == v.advances
  {
    var t := CalculateReceipt(v);
    SalarySlip(
      employeeId := data.emp.id,
      employeeName := data.emp.name,
      employeeRole := data.emp.role,
      baseSalary := v.baseSalary,
      allowances := v.complement,
      bonuses := v.bonus,
      subsidies := t.totalVencimentoAntesImpostos - t.totalBaseIliquido,
      subsidyFood := v.subsidyFood,
      subsidyTransport := v.subsidyTransport,
      subsidyFamily := v.subsidyFamily,
      subsidyHousing := v.subsidyHousing,
      absences := v.absences,
      advances := v.advances,
      grossTotal := t.totalVencimentoAntesImpostos,
      inss := t.inss,
      irt := t.irt,
      netTotal := t.netTotal,
      month := data.month,
      year := data.year,
      isProcessed := true,
      attendanceDetails := Some(data.attendanceDetails))
  }

  // ---------------------------------------------------------------------------
  // Bulk salary processing

  /** The slip `PROCESS_SALARIO` pushes for one employee, with `manualFaltas`
      the period's manual absence count (0 when none was entered). */
  function MassSlip(emp: Employee, month: int, year: int, manualFaltas: real): (s: SalarySlip)
    ensures SlipConsistent(s)
    ensures s.bonuses == 0.0 && s.advances == 0.0
    ensures s.subsidies == emp.subsidyFood + emp.subsidyTransport + emp.subsidyFamily + emp.subsidyHousing
    ensures s.subsidies == s.subsidyFood + s.subsidyTransport + s.subsidyFamily + s.subsidyHousing
    ensures s.grossTotal == emp.baseSalary + emp.complementSalary
                            - AbsenceDeduction(emp.baseSalary, manualFaltas) + s.subsidies
    ensures s.employeeId == emp.id && s.month == month && s.year == year && s.isProcessed
    ensures s.absences == manualFaltas && s.attendanceDetails.None?
  {
    var absenceVal := AbsenceDeduction(emp.baseSalary, manualFaltas);
    var totalBaseIliquido := emp.baseSalary + OrElse(emp.complementSalary, 0.0) - absenceVal;
    var inss := INSS(totalBaseIliquido);
    var subsidiesTotal := emp.subsidyFood + emp.subsidyTransport
                          + OrElse(emp.subsidyFamily, 0.0) + OrElse(emp.subsidyHousing, 0.0);
    var gross := totalBaseIliquido + subsidiesTotal;
    var irt := IRT(gross, inss);
    SalarySlip(
      employeeId := emp.id,
      employeeName := emp.name,
      employeeRole := emp.role,
      baseSalary := emp.baseSalary,
      allowances := OrElse(emp.complementSalary, 0.0),
      bonuses := 0.0,
      subsidies := subsidiesTotal,
      subsidyFood := emp.subsidyFood,
      subsidyTransport := emp.subsidyTransport,
      subsidyFamily := OrElse(emp.subsidyFamily, 0.0),
      subsidyHousing := OrElse(emp.subsidyHousing, 0.0),
      absences := manualFaltas,
      advances := 0.0,
      grossTotal := gross,
      inss := inss,
      irt := irt,
      netTotal := gross - inss - irt,
      month := month,
      year := year,
      isProcessed := true,
      attendanceDetails := None)
  }

  /** The two recipes agree when the receipt is processed with its opening
      values, when the base salary and the food and transport amounts handed
      to the receipt are either absent or the employee's own (the attendance
      dialog always hands over the employee's base salary), and for an
      employee without any of the amounts the mass path ignores: no vacation
      or Christmas subsidy, penalty or salary adjustment. */
  lemma RecipesAgreeOnPlainEmployee(data: ReceiptData, month: int, year: int)
    requires data.baseSalary == 0.0 || data.baseSalary == data.emp.baseSalary
    requires data.subsAlimManual == 0.0 || data.subsAlimManual == data.emp.subsidyFood
    requires data.subsTransManual == 0.0 || data.subsTransManual == data.emp.subsidyTransport
    requires data.manualFaltas.Some?
    requires data.month == month && data.year == year
    requires data.emp.subsidyVacation == 0.0 && data.emp.subsidyChristmas == 0.0
    requires data.emp.penalties == 0.0 && data.emp.salaryAdjustments == 0.0
    ensures var r := ReceiptSlip(data, InitialValues(data));
            var m := MassSlip(data.emp, month, year, data.manualFaltas.value);
            r.grossTotal == m.grossTotal && r.inss == m.inss && r.irt == m.irt && r.netTotal == m.netTotal
  {
  }

  /** The net pay never exceeds the gross less INSS when advances are not
      negative, and IRT never takes more than a quarter of the pay left after
      INSS. */
  lemma NetWithinGross(s: SalarySlip)
    requires SlipConsistent(s)
    requires s.advances >= 0.0
    ensures s.netTotal <= s.grossTotal - s.inss
    ensures s.grossTotal - s.inss > 0.0 ==> s.netTotal >= (s.grossTotal - s.inss) * 0.75 - s.advances
  {
  }

  /** Worked examples: a base salary of 100 000 with no subsidies nets 92 300
      (INSS 3 000, IRT 4 700); with three days' absence it nets 83 570
      (deduction 10 000, INSS 2 700, IRT 3 730). */
  lemma WorkedExamples(emp: Employee)
    requires emp.baseSalary == 100000.0 && emp.complementSalary == 0.0
    requires emp.subsidyFood == 0.0 && emp.subsidyTransport == 0.0
    requires emp.subsidyFamily == 0.0 && emp.subsidyHousing == 0.0
    ensures MassSlip(emp, 3, 2025, 0.0).inss == 3000.0
    ensures MassSlip(emp, 3, 2025, 0.0).irt == 4700.0
    ensures MassSlip(emp, 3, 2025, 0.0).netTotal == 92300.0
    ensures MassSlip(emp, 3, 2025, 3.0).grossTotal == 90000.0
    ensures MassSlip(emp, 3, 2025, 3.0).irt == 3730.0
    ensures MassSlip(emp, 3, 2025, 3.0).netTotal == 83570.0
  {
  }
}
