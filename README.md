# Payroll and HR core of an Angolan ERP, in Dafny

This project models the payroll and human-resources core of a web ERP written for
Angolan companies. It covers the following parts:

- **Statutory calculations** (`utils.ts`):
  - the employee's 3% and the employer's 8% social-security (INSS) contributions;
  - the progressive IRT income tax;
  - document-type prefixes, the UUID check and the WhatsApp link builder.
- **The payroll board** (`components/HumanResources.tsx`). For a processing month and
  year, the operator:
  - marks each employee's attendance ("efectividade");
  - processes salary slips, one at a time through the receipt dialog or in bulk;
  - deletes slips or attendance marks;
  - executes a bank transfer. A transfer posts one cash withdrawal per employee and
    saves a transfer order.

  The board also shows a dashboard summary. It dismisses and readmits employees.
- **The secondary screens that read the same data**:
  - the employee register with its filters, the new-employee form and the dismissal
    payload (`Employees.tsx`);
  - the labour-status listing (`LaborStatus.tsx`);
  - the restaurant order form (`POS.tsx`);
  - the maps of tax withheld from suppliers and by clients (`WithholdingPayable.tsx`,
    `WithholdingReceivable.tsx`);
  - the salary map, the salary list and the INSS listing (`SalaryMap.tsx`,
    `SalaryListReport.tsx`, `InssList.tsx`);
  - the licence manager's countdown and filters (`CRMManager.tsx`);
  - the employee-card print selection (`EmployeeCardPrint.tsx`);
  - the profession catalogue (`ProfessionManager.tsx`).

Modules:

- `Common`:
  - `Option`;
  - a generic `Filter` with its subsequence lemmas;
  - `Find`;
  - `Sum` (a left fold, as `reduce` is);
  - ASCII and Latin-1 lower-casing and substring search.
- `Tax`, `Utils`: `utils.ts`.
- `Staff`: the employee record with dismissal and readmission.
- `Payslip`: the two slip recipes.
- `HumanResources`: the queries of the payroll board, plus the class `PayrollBoard`.
  The class holds the board's state:
  - employees, payroll and transfer history;
  - period, attendance keys and manual absences;
  - the open receipt;
  - the cash ledger.

  Its methods change that state as the screen's handlers do.
- `Pos.OrderForm` and `EmployeeCardPrint.CardSelection`: classes for the two other
  components whose state is updated in place.
- The other components: one module each, with pure functions over values.

Representation:

- Money is modelled as `real`.
- Identifiers and names are strings.
- Calendar dates and the clock are integers passed in as parameters.
- A missing optional string is `""` and a missing amount is `0`. JavaScript's
  `x || d` on a number is therefore "`x` unless it is 0".
- Two string keys become datatypes:
  - the attendance key `${id}-${month}-${year}` is `PeriodKey(id, month, year)`;
  - the order period `${monthName}/${year}` is `PeriodLabel(monthName, year)`.
- The parent callbacks the board calls are not part of this model. They are modelled
  as plain list updates:
  - saving payroll appends;
  - clearing a period removes the matching slips;
  - saving an order appends.

Where the code behaves otherwise than its screens and labels suggest, the model
follows the code:

- Clearing the salaries of a period that was already paid is not refused.
- Readmission leaves `dismissalDate` in the employee record the screen keeps. Only the
  database update clears it.
- More than one slip per employee and period can be stored. Every lookup uses the
  first one.
- The bank transfer never checks whether a selected employee is already paid for the
  period, so the same employee can be put on a second transfer order for that period.
  `ExecuteTransfer` follows the code here.

## Model

| member | source | states |
|---|---|---|
| Tax.ContributionShares | utils.ts:78-84 | The employee (3%) and employer (8%) INSS shares add up to 11% of the gross; for a non-negative gross the employee share is non-negative and never above the employer's |
| Tax.IRT | utils.ts:86-96 | IRT is never negative, is 0 up to a taxable 50 000 Kz and never exceeds 25% of the taxable amount |
| Tax.Band | utils.ts:90-95 | The part of a taxable amount falling inside one band lies between 0 and the band's width |
| Tax.IrtIsMarginalTax | utils.ts:86-96 | The IRT tier formulas equal the sum of each band's portion taxed at its marginal rate (10/15/20/25%), an independent reference definition |
| Tax.Tier | utils.ts:90-95 | The tier chosen is the first one whose upper bound is not exceeded |
| Tax.IrtPiecewise | utils.ts:86-96 | IRT applies exactly the formula of the tier the taxable amount falls in |
| Tax.IrtContinuousAtBounds | utils.ts:90-95 | Adjacent tier formulas agree at each bound (50 000, 150 000, 250 000, 500 000), so the table has no jumps |
| Tax.IrtMonotoneAndBounded | utils.ts:86-96 | A larger taxable amount never pays less IRT, and the extra tax is at most 25% of the extra income |
| Utils.DocumentPrefix | utils.ts:55-69 | Every listed document type gets a two-letter prefix, receipts (RG) get "RC", and "DOC" is returned exactly for unlisted types |
| Utils.PrefixIdentifiesType | utils.ts:55-69 | Distinct listed document types never share a prefix |
| Utils.ValidUUIDShape | utils.ts:26-30 | A string is accepted as a UUID iff it has 36 characters, hyphens at 8, 13, 18 and 23, version digit 1-5, variant digit 8/9/a/b and hex digits (either case) elsewhere; the empty string is refused |
| Utils.DigitsOnly | utils.ts:112 | The cleaned phone number contains digits only and is no longer than the input |
| Utils.DigitsOnlyIsDigitSubsequence | utils.ts:112 | The cleaned phone number is exactly the input's digits in order: a subsequence keeping every digit |
| Utils.DigitsOnlyIdempotent | utils.ts:112 | Cleaning a cleaned number changes nothing |
| Utils.WhatsAppLink | utils.ts:111-114 | The link is the wa.me base, then the cleaned number, then "?text=" and the encoded message, each at its position |
| Staff.Dismiss | components/HumanResources.tsx:861-906 | Dismissal succeeds iff date, orderer and reason are all given; the result is terminated, carries the dismissal data, has one history entry appended, and no other field changes |
| Staff.Rehire | components/HumanResources.tsx:908-938 | Readmission succeeds iff the form is complete; the result is Readmitted/ativo, no longer terminated, has one history entry appended, and no other field changes (the dismissal date is kept) |
| Staff.DismissThenRehire | components/HumanResources.tsx:880-938 | Dismissing and then readmitting gives a Readmitted employee with the same id and base salary, whose history gains exactly the two entries in order and whose dismissal date is still the dismissal's |
| Payslip.InitialValues | components/HumanResources.tsx:218-233 | The receipt opens with the base salary and food/transport subsidies typed in for the period when non-zero, the employee's own otherwise, the absences entered, bonus, advances and justified absences at 0, and complement, the four other subsidies, penalties and adjustments at the employee's standing amounts |
| Payslip.ReceiptSlip | components/HumanResources.tsx:235-272 | The interactive slip is internally consistent (INSS is 3% of the pay before subsidies, IRT the bracket tax of gross after INSS, net = gross − INSS − IRT − advances); pay before subsidies is base + complement − absence deduction + bonus + adjustments − penalties; subsidies are the four listed ones plus vacation and Christmas; it keeps the employee, period and typed values |
| Payslip.CalculateReceipt | components/HumanResources.tsx:235-245 | The absence deduction is 0 exactly when there is no base or no absence; INSS is taken on the pay before subsidies; gross is that pay plus the subsidies; IRT is never negative; with non-negative advances the net never exceeds gross after INSS |
| Payslip.MassSlip | components/HumanResources.tsx:707-737 | The bulk slip is consistent, has no bonus or advances, its subsidies are the employee's four, its gross is base + complement − absence deduction + subsidies, and it records the absences given |
| Payslip.RecipesAgreeOnPlainEmployee | components/HumanResources.tsx:235-272 | With the opening values, base salary and food/transport subsidies either not typed in or equal to the employee's own, and none of the amounts only one path reads, the interactive and the bulk recipes give the same gross, INSS, IRT and net |
| Payslip.NetWithinGross | components/HumanResources.tsx:707-737 | For a consistent slip without negative advances, the net never exceeds gross less INSS, and keeps at least 75% of it less the advances |
| Payslip.WorkedExamples | components/HumanResources.tsx:707-737 | For a 100 000 Kz base: INSS 3 000, IRT 4 700, net 92 300; with 3 absence days: gross 90 000, IRT 3 730, net 83 570 |
| HumanResources.MonthName | components/HumanResources.tsx:645-648 | Months 1-12 get their Portuguese name; any other index gives "undefined", as indexing past the array does |
| HumanResources.LabelInjective | components/HumanResources.tsx:857 | Two valid periods with the same label are the same month and year |
| HumanResources.FindEmployee | components/HumanResources.tsx:858 | Finds the first employee with the id, drawn from the list, and fails exactly when no employee has it |
| HumanResources.ProcessedSlip | components/HumanResources.tsx:852-854 | Returns the first slip of the payroll for that employee and period, and none exactly when no slip has that key |
| HumanResources.IsPaidSharedByNamesakes | components/HumanResources.tsx:856-859 | Payment is matched by name: when one employee is paid for the period, every employee of the same name counts as paid |
| HumanResources.Summary | components/HumanResources.tsx:650-668 | Total count is the list's length; active and terminated are exactly the employees counted active and terminated; processed is exactly the number of the period's slips; active plus terminated never exceed the total; pending = active − processed; INSS total = 3% + 8% of the base total |
| HumanResources.ProcessedCountGrows | components/HumanResources.tsx:650-668 | Adding slips of the current period raises the processed count by exactly their number |
| HumanResources.MassSlips | components/HumanResources.tsx:696-747 | Bulk processing yields no more slips than selected ids; each is a consistent slip of the period, without bonus or advances, for a selected, non-terminated employee whose attendance is marked, and equal to the bulk slip of that employee with the absences recorded for the period; every such employee gets one |
| HumanResources.MassSlipsFollowSelection | components/HumanResources.tsx:696-747 | Bulk processing makes exactly one slip per selected id that names a non-terminated employee with marked attendance, in selection order |
| HumanResources.WithoutPeriod | components/HumanResources.tsx:683-695 | Clearing equals the order-preserving filter of the slips that are not of the period for a selected employee, so it keeps each such slip as often as it occurs |
| HumanResources.WithoutPeriodIsSubsequence | components/HumanResources.tsx:758-767 | Clearing keeps the remaining slips in their order |
| HumanResources.WithoutNobody | components/HumanResources.tsx:758-767 | Clearing for no employee leaves the payroll unchanged |
| HumanResources.WithoutPeriodStep | components/HumanResources.tsx:758-767 | Clearing a set and then one more id equals clearing the set with that id added |
| HumanResources.ClearedHaveNoSlip | components/HumanResources.tsx:758-767 | After clearing, no selected employee has a slip for the period |
| HumanResources.EligibleKeys | components/HumanResources.tsx:671-682 | Attendance keys are made exactly for the selected ids naming employees that are not terminated; the set is empty iff no selected id qualifies |
| HumanResources.IdSet | components/HumanResources.tsx:782 | The set holds exactly the ids of the selection |
| HumanResources.IdSetAppend | components/HumanResources.tsx:782 | Adding one id to the selection adds it to the set |
| HumanResources.CashierName | components/HumanResources.tsx:793 | The cashier name is the name of the first register with the id when that name is non-empty, and "Caixa Local" when it is empty or no register has the id |
| HumanResources.TransferItemFor | components/HumanResources.tsx:800-810 | An item carries the employee's name and idnf and the slip's net and gross; its discounts are INSS + IRT + advances, so amount = gross − discounts on a consistent slip; bank fields are never empty |
| HumanResources.PostingFor | components/HumanResources.tsx:815-825 | Each posting withdraws the slip's net from the chosen register |
| HumanResources.TransferItems | components/HumanResources.tsx:797-826 | One item per selected id, in order |
| HumanResources.Postings | components/HumanResources.tsx:797-826 | One posting per selected id, in order |
| HumanResources.TransferStep | components/HumanResources.tsx:797-826 | Paying one more id extends items and postings by exactly that id's item and posting |
| HumanResources.TotalNetIsSumOfItems | components/HumanResources.tsx:788-791 | The order's total (sum of the selected slips' nets) equals the sum of its items' amounts |
| HumanResources.TransferItemsNameEmployees | components/HumanResources.tsx:800-810 | The i-th item names the employee of the i-th selected id and pays that employee's net |
| HumanResources.TransferMarksPaid | components/HumanResources.tsx:828-837 | After an order for a selection is saved, every selected employee counts as paid for the period |
| HumanResources.PayrollBoard.constructor | components/HumanResources.tsx:618-624 | The board starts with the given data and period, no attendance keys, no manual absences, no open receipt and an empty ledger |
| HumanResources.PayrollBoard.ProcessEffectiveness | components/HumanResources.tsx:671-682 | Adds the eligible keys of the period and reports success iff there were any; nothing else changes |
| HumanResources.PayrollBoard.DeleteEffectiveness | components/HumanResources.tsx:683-695 | With an empty selection or no confirmation nothing changes; otherwise the selected keys of the period are removed and so are those employees' slips of the period |
| HumanResources.PayrollBoard.ProcessSalary | components/HumanResources.tsx:696-747 | Appends exactly the bulk slips for the selection and returns their number; the class invariant (every slip built in the session has its attendance key) is kept |
| HumanResources.PayrollBoard.DeleteSalary | components/HumanResources.tsx:758-767 | With an empty selection or no confirmation nothing changes; otherwise the period's slips of the selected employees are removed, even when already paid |
| HumanResources.PayrollBoard.SetManualAbsence | components/HumanResources.tsx:1204-1214 | On a row that is not locked (employee not dismissed, no slip for the period) only the absence entry for that employee and period changes; on a locked row nothing changes |
| HumanResources.PayrollBoard.ConfirmAttendance | components/HumanResources.tsx:1009-1030 | On a row that is not locked (the row's buttons at lines 1191-1228 open the dialog only for a non-dismissed employee without a slip) the attendance key is added, the manual absences recorded and the receipt opened with the employee's data for the period; on a locked row nothing changes |
| HumanResources.PayrollBoard.CommitReceipt | components/HumanResources.tsx:1039-1042 | The receipt's slip is appended to the payroll and the receipt closes |
| HumanResources.PayrollBoard.CloseReceipt | components/HumanResources.tsx:1038 | The receipt closes and nothing is stored |
| HumanResources.PayrollBoard.PostWithdrawals | components/HumanResources.tsx:797-826 | Either every selected id is paid (items and postings for all, in order), or it stops at the first id naming no employee with the postings of the earlier ids already made |
| HumanResources.PayrollBoard.ExecuteTransfer | components/HumanResources.tsx:779-850 | Refuses iff no register is chosen; refuses before any write iff some selected employee has no slip for the period; a missing employee stops the batch midway with no order saved; otherwise one order (total = sum of nets, one item per id, cashier name, period label) is appended and one withdrawal per id posted |
| Employees.ActiveExcludesTerminated | components/Employees.tsx:115-116 | An employee never counts as both active and terminated |
| Employees.FilteredEmployees | components/Employees.tsx:108-130 | The listing keeps the original order and holds exactly the employees matching search, status, department and the completed-file switch; each kept entry appears as often as in the input |
| Employees.StatusFilterSelects | components/Employees.tsx:118 | With no other filter set: ALL shows everyone, ACTIVE exactly the active ones, INACTIVE exactly the terminated ones |
| Employees.NewEmployee | components/Employees.tsx:143-163 | A new record is Active, admitted today, with every amount at 0, no history and no completed file |
| Employees.Save | components/Employees.tsx:168-179 | A record is saved unchanged iff name, NIF and role are all filled in |
| Employees.BlankFormRefused | components/Employees.tsx:170 | A fresh blank form cannot be saved |
| Employees.DismissalPayload | components/Employees.tsx:181-198 | The payload exists iff the form is complete; it is terminated, keeps id, name and salary, and extends the history by one entry |
| Employees.ExactlyOneLifecycleAction | components/Employees.tsx:42-43 | The menu shows exactly one of "readmit" and "dismiss"; "dismiss" is offered to a terminated employee only when the termination is the lower-case status "demitido" |
| Employees.LifecycleMenuAlternates | components/Employees.tsx:42-43 | After a dismissal the menu offers readmission and not dismissal; after a readmission, the reverse |
| LaborStatus.ClassesAreConsistent | components/LaborStatus.tsx:28-30 | "Demitido" coincides with the terminated test; an active-class employee is neither dismissed nor readmitted |
| LaborStatus.FilteredEmployees | components/LaborStatus.tsx:22-43 | The listing keeps order and holds exactly the matching employees; each one's admission lies within the dates that are set; each kept entry appears as often as in the input |
| LaborStatus.SubViewSelects | components/LaborStatus.tsx:32-35 | With no search or dates, each sub-view shows exactly its class of employees |
| LaborStatus.StatusLabel | components/LaborStatus.tsx:145 | "Demitido" iff dismissed, "Readmitido" iff readmitted and not dismissed, "Ativo" otherwise |
| LaborStatus.OrderedBy | components/LaborStatus.tsx:135-137 | Shows who ordered the dismissal, else who ordered the readmission, else "---" |
| LaborStatus.LifecycleLabels | components/LaborStatus.tsx:145-150 | A dismissed employee is labelled "Demitido", shows the dismissal's orderer and is offered readmission; once readmitted, labelled "Readmitido", shows the readmission's orderer and is not offered it |
| Pos.Bump | components/POS.tsx:43 | Raises the quantity of the lines of that product by one and leaves every other line and field alone |
| Pos.AddedToCart | components/POS.tsx:40-47 | The cart afterwards holds the product; when it already held it the cart keeps its length and is the cart with that line's quantity bumped by one, otherwise one new line of quantity 1 at the menu price is appended |
| Pos.RemovedAt | components/POS.tsx:95 | Removing a position drops exactly that line and keeps the others in order |
| Pos.AddToCartProperties | components/POS.tsx:40-47 | Adding keeps one line per product, adds 1 to the product's count and to the cart's quantity, and adds the product's price to the cart's value |
| Pos.RemoveLineTotals | components/POS.tsx:94-95 | Removing a line lowers the quantity and value by exactly that line's |
| Pos.RemoveLineKeepsDistinct | components/POS.tsx:95 | Removing a line keeps one line per product |
| Pos.OrderForm.constructor | components/POS.tsx:36-38 | A new order is for waiter "Admin", in the dining room, with an empty cart |
| Pos.OrderForm.AddToCart | components/POS.tsx:40-47 | The cart becomes the added cart, its quantity grows by one, and one line per product is kept |
| Pos.OrderForm.RemoveLine | components/POS.tsx:95 | The cart loses exactly the chosen line and that line's quantity |
| Pos.OrderForm.CanSend | components/POS.tsx:100 | Sending is enabled iff the cart is not empty |
| WithholdingPayable.NifAO | components/WithholdingPayable.tsx:36 | The company NIF cut to at most 9 characters, a prefix of it |
| WithholdingPayable.RateOf | components/WithholdingPayable.tsx:47 | The item's rate, or 6.5 when none is set |
| WithholdingPayable.NumberedRows | components/WithholdingPayable.tsx:34-49 | One row per withholding item, numbered from the given start |
| WithholdingPayable.PurchaseRows | components/WithholdingPayable.tsx:34-49 | A purchase's rows are numbered 1, 2, … and each has a positive amount withheld |
| WithholdingPayable.ReportRows | components/WithholdingPayable.tsx:27-50 | The rows are the withholding rows of the included purchases, purchase after purchase in list order; every row comes from an included purchase, withholds a positive amount, carries the company's cut NIF and a number from 1, and shows paid equal to total |
| WithholdingPayable.Footer | components/WithholdingPayable.tsx:52-58 | An empty map has all four totals at 0 |
| WithholdingPayable.FooterIsColumnSums | components/WithholdingPayable.tsx:52-58 | Each footer figure is the sum of its column |
| WithholdingPayable.NumberedRowsWithheld | components/WithholdingPayable.tsx:34-48 | A purchase's withheld column sums to the amounts withheld on its withholding items |
| WithholdingPayable.NumberedRowsSubject | components/WithholdingPayable.tsx:34-46 | A purchase's subject column sums to the totals of its withholding items |
| WithholdingPayable.TimesIsProduct | components/WithholdingPayable.tsx:44 | Repeating a document total n times is n times that total |
| WithholdingPayable.NumberedRowsTotal | components/WithholdingPayable.tsx:44 | A purchase's total column repeats the document total once per withholding row |
| WithholdingPayable.TotalColumnRepeatsDocumentTotal | components/WithholdingPayable.tsx:44 | A purchase adds its document total times its number of withholding items to the footer |
| WithholdingPayable.WithheldOverPurchases | components/WithholdingPayable.tsx:52-58 | The withheld total equals the sum of the amounts withheld on the included purchases' items |
| WithholdingPayable.SubjectOverPurchases | components/WithholdingPayable.tsx:52-58 | The subject total equals the sum of the included purchases' withholding item totals |
| WithholdingPayable.TotalOverPurchases | components/WithholdingPayable.tsx:52-58 | The total column adds each included purchase's document total once per withholding item |
| WithholdingPayable.FooterOverPurchases | components/WithholdingPayable.tsx:27-58 | The footer, stated over the included purchases: withheld and subject are item sums, total and paid repeat document totals per row |
| WithholdingPayable.PaidEqualsTotal | components/WithholdingPayable.tsx:44-45 | The paid total always equals the document total |
| WithholdingPayable.WithholdingTestIsRedundant | components/WithholdingPayable.tsx:33-34 | A purchase without withholding items contributes no rows even without the filter's withholding test |
| WithholdingReceivable.NumberedRows | components/WithholdingReceivable.tsx:33-43 | One row per invoice, numbered from the given start, withholding the invoice's amount |
| WithholdingReceivable.ReportRows | components/WithholdingReceivable.tsx:26-44 | One row per included invoice, in list order, the i-th being the row built from the i-th included invoice with number i + 1; each has a positive withheld amount, no credit note and rate "6.5%" |
| WithholdingReceivable.TotalWithheld | components/WithholdingReceivable.tsx:46 | An empty map withholds 0 in total |
| WithholdingReceivable.NumberedRowsWithheld | components/WithholdingReceivable.tsx:42 | The rows' withheld column sums to the invoices' withholding amounts |
| WithholdingReceivable.SumPositive | components/WithholdingReceivable.tsx:46 | A sum of positive withheld amounts is 0 only for no rows |
| WithholdingReceivable.TotalWithheldOverInvoices | components/WithholdingReceivable.tsx:26-46 | The total withheld equals the sum over the included invoices and is 0 iff the map is empty |
| SalaryMap.Fallback | components/SalaryMap.tsx:23-31 | Without a slip: gross = base, INSS 3% of base, no IRT, net = base − INSS |
| SalaryMap.SlipFor | components/SalaryMap.tsx:23 | The figures are those of the employee's first slip of any period, or the fallback when there is none |
| SalaryMap.LookupIgnoresPeriod | components/SalaryMap.tsx:23 | A slip of another month placed first is the one shown |
| SalaryMap.RowFor | components/SalaryMap.tsx:33-46 | A row is numbered from 1, takes the slip's figures, has employer INSS of 8% of base, and never shows an empty text cell |
| SalaryMap.MapData | components/SalaryMap.tsx:21-49 | One row per employee, in order |
| SalaryMap.FallbackRow | components/SalaryMap.tsx:23-46 | For an employee without a slip: net = base − INSS, no IRT, and the two INSS columns add up to 11% of base |
| SalaryMap.FooterIsColumnSums | components/SalaryMap.tsx:51-57 | The net and IRT totals are their column sums; the INSS total is the sum of both INSS columns |
| SalaryMap.Footer | components/SalaryMap.tsx:51-57 | An empty map has all three totals at 0 |
| SalaryListReport.RowFor | components/SalaryListReport.tsx:15-36 | Numbered from 2, base from the slip when non-zero (else the employee's), helps from the slip or 0, total = base + helps, workplace never empty |
| SalaryListReport.ReportData | components/SalaryListReport.tsx:15-36 | One row per employee, in order |
| SalaryListReport.TotalSplitsByColumn | components/SalaryListReport.tsx:38 | The computed (unrendered) total is base column plus helps column plus the fixed 172 455 of the sample row; for an empty list it is 172 455 |
| SalaryListReport.TotalVencimentos | components/SalaryListReport.tsx:38 | For an empty list the computed (unrendered) total is the sample row's fixed 172 455 |
| InssList.ActiveEmployees | components/InssList.tsx:16 | The listing keeps order and holds exactly the employees with status "Active"; each kept entry appears as often as in the input |
| InssList.VctTotal | components/InssList.tsx:55 | The remuneration total exceeds the base by exactly the complement |
| InssList.IdnfShown | components/InssList.tsx:58 | The employee's own IDNF when set, else the row position |
| InssList.ActiveCount | components/InssList.tsx:80 | The count shown is the listing's length |
| InssList.ListingIgnoresEmploymentStatus | components/InssList.tsx:16 | An employee with status "Active" is listed even when marked "demitido", and a readmitted one is never listed |
| CrmManager.GetTimeRemaining | components/CRMManager.tsx:143-157 | Expired, with 0 days and 0 hours, iff the remaining time is not positive; otherwise the whole days and the 0-23 leftover whole hours of the remaining time, and WARNING iff at most 7 days remain |
| CrmManager.CountdownNeverGrows | components/CRMManager.tsx:143-157 | As time passes the days left never grow |
| CrmManager.LicenceTotalBounds | components/CRMManager.tsx:401 | No discount gives the full price, 100% gives 0, and any discount in between keeps the total between the two |
| CrmManager.MonthlyPrice | components/CRMManager.tsx:401 | The monthly prices are 15 000 Kz for STARTER, 35 000 for PROFESSIONAL and 85 000 for ENTERPRISE |
| CrmManager.LicenceTotal | components/CRMManager.tsx:401 | Without a discount the licence costs the months times the monthly price; a 100% discount costs 0 |
| CrmManager.TabsPartition | components/CRMManager.tsx:134-138 | No company is on both the ACTIVE and EXPIRED tabs; PENDING holds exactly the pre-registered ones; ALL holds every company |
| CrmManager.FilteredCompanies | components/CRMManager.tsx:131-141 | The listing keeps order and holds exactly the companies matching the search and the tab; each kept entry appears as often as in the input |
| CrmManager.TabAgreesWithCountdown | components/CRMManager.tsx:134-148 | A company past its date is shown as expired by the countdown, and the countdown shows expired only for a past date or at the due instant itself |
| EmployeeCardPrint.FilteredEmployees | components/EmployeeCardPrint.tsx:22-29 | The listing keeps order, holds exactly the matching active employees, and shows nobody terminated; each kept entry appears as often as in the input |
| EmployeeCardPrint.Toggled | components/EmployeeCardPrint.tsx:31-36 | The id changes membership and no other id does |
| EmployeeCardPrint.ToggleTwice | components/EmployeeCardPrint.tsx:31-36 | Toggling twice restores the selection |
| EmployeeCardPrint.IdsOf | components/EmployeeCardPrint.tsx:42 | Exactly the ids of the listed employees |
| EmployeeCardPrint.SelectAll | components/EmployeeCardPrint.tsx:38-44 | When the selection's size equals the listing's length it clears, otherwise it becomes the listed ids |
| EmployeeCardPrint.SelectAllComparesSizesOnly | components/EmployeeCardPrint.tsx:39 | A selection of one other employee, the size of a one-employee listing, is cleared instead of replaced |
| EmployeeCardPrint.DistinctIdsCount | components/EmployeeCardPrint.tsx:39-42 | With distinct ids, the listed id set has as many members as the listing |
| EmployeeCardPrint.SelectAllThenClear | components/EmployeeCardPrint.tsx:38-44 | For a listing with distinct ids, pressing "select all" twice from a partial selection clears it |
| EmployeeCardPrint.CardSelection.constructor | components/EmployeeCardPrint.tsx:20 | The selection starts empty |
| EmployeeCardPrint.CardSelection.ToggleSelect | components/EmployeeCardPrint.tsx:31-36 | The selection becomes the toggled one |
| EmployeeCardPrint.CardSelection.ToggleSelectAll | components/EmployeeCardPrint.tsx:38-44 | The selection becomes the select-all result |
| EmployeeCardPrint.CardSelection.CanPrint | components/EmployeeCardPrint.tsx:62 | Printing is enabled iff something is selected |
| ProfessionManager.Filtered | components/ProfessionManager.tsx:23-26 | The listing keeps order and holds exactly the professions whose name (ignoring case) or code contains the term; each kept entry appears as often as in the input |
| ProfessionManager.EmptySearchShowsAll | components/ProfessionManager.tsx:23-26 | An empty search lists every profession |
| ProfessionManager.SaveForm | components/ProfessionManager.tsx:38-53 | Saving succeeds iff name and code are filled; the id is kept or the fresh one used, the category defaults to "Interna", the rest is kept |
| ProfessionManager.SaveUnchangedIsIdentity | components/ProfessionManager.tsx:38-53 | Saving a complete stored profession unchanged returns it as it was |
| ProfessionManager.SaveIdempotent | components/ProfessionManager.tsx:38-53 | Saving a saved profession again changes nothing, whatever fresh id is offered |

## Left out

- The database (Supabase) reads and writes, the company-id lookup, insert errors and the
  asynchronous flow with its try/catch. Only the stop at an id that names no employee
  is kept, because it ends the transfer loop.
- Calendar dates, the clock and `Intl` formatting. Dates are integers passed in.
  `formatCurrency`, `formatDate`, the amount in words and display rounding are
  presentation.
- Random identifiers (`generateId`, UUIDs, hashes) are parameters. `encodeURIComponent`
  is not modelled: the WhatsApp link takes the encoded message as given.
- Floating-point rounding: amounts are exact reals.
- `Number()` of a non-numeric field (NaN) is not modelled.
- JSX layout, `alert` messages and printing. A `confirm` dialog is a boolean parameter.
- The board's check-box selection is passed in as a sequence of ids.
- `PRINT_RECIBOS` only opens a receipt for display and changes no data.
- The `handleTransfer` modal gate only opens the transfer dialog.
- Movement descriptions, movement dates and company ids of postings are not modelled.
  Neither are the order's free-text fields.
- The per-day editing inside the attendance grid and its `manualValues` are not
  modelled. The grid's confirmation is modelled with the absence count it returns.
- The seniority ("antiguidade") column of the salary list needs the clock.
- `EffectivenessMap.tsx`, `TransferOrderReport.tsx` and `WithholdingMaps.tsx` only
  render data. Their arithmetic repeats what is modelled above.
- The CRM manager's fetch, update and activation calls are database writes.
- The shared type definitions file is not part of this model. Employee fields that no
  modelled code reads (contract type, gender, marital status, and the like) are left out.
- HumanResources.Summary: does not state that the base-salary total and the paid total
  are the sums over active employees and over the period's orders. Only their
  relations to the other figures are stated. The counts are stated exactly.
- HumanResources.PayrollBoard.ProcessSalary: the slips are appended even for
  employees already processed for the period. The code does not check this, so the
  model does not either.
- HumanResources.PayrollBoard.DeleteSalary: clearing a period that transfers already
  paid is not refused, because the code does not refuse it.
- Staff.Rehire: the employee record the screen keeps still carries the dismissal date.
  Only the database update nulls it.
- HumanResources.IsPaidSharedByNamesakes: payment is matched by employee name, as the
  code does, not by id.
- SalaryMap.SlipFor: the slip lookup ignores the month and year, as the code does.
- EmployeeCardPrint.SelectAll: compares sizes rather than contents, as the code does.
- WithholdingPayable.FooterOverPurchases: the total and paid columns repeat the
  document total once per withholding item, as the code does.
- HumanResources.PayrollBoard.SetManualAbsence: entries are never cleared when a
  period's attendance is deleted, as in the code.
- HumanResources.Summary: its active count excludes status `ativo`, as the code's
  dashboard does, unlike the other screens.
- HumanResources.PayrollBoard.ExecuteTransfer: an empty selection passes every check
  and saves an order with no items and total 0, as the code does.
- Common.LowerChar: lower-cases only the ASCII and Latin-1 capitals. Other scripts and
  the special cases of `toLowerCase` (such as the dotted capital I) are left as they are.
- HumanResources.PayrollBoard.ExecuteTransfer: employees already paid for the period
  are not refused, as in the code.
