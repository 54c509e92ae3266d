/** The withholding-tax map for payments to suppliers, `WithholdingPayable.tsx`:
    the paid purchases of one month that withheld tax become one report row
    per withholding item, and the footer adds up four columns. A purchase's
    date is given as the year and month it falls in. */
module WithholdingPayable {
  import opened Common

  /** A purchase line; an absent rate or withheld amount is 0. */
  datatype PurchaseItem = PurchaseItem(total: real, withholdingRate: real, withholdingAmount: real)

  datatype Purchase = Purchase(supplier: string, documentNumber: string, nif: string,
                               date: string, year: int, month: int, status: string,
                               total: real, items: seq<PurchaseItem>)

  /** One report row. `rate` is the percentage the row prints. */
  datatype Row = Row(no: nat, nifAO: string, nif: string, supplier: string,
                     conformity: string, petroleum: string, docNo: string,
                     dateIssued: string, datePaid: string,
                     total: real, paid: real, subject: real, rate: real, withheld: real)

  /** The year, month and search box of the screen. */
  datatype ReportQuery = ReportQuery(year: int, month: int, searchTerm: string)

  predicate Withholds(it: PurchaseItem)
  {
    it.withholdingAmount > 0.0
  }

  predicate HasWithholding(pur: Purchase)
  {
    exists i :: 0 <= i < |pur.items| && Withholds(pur.items[i])
  }

  /** A purchase is reported when it falls in the selected month, is `PAID`,
      withheld tax on some item, and its supplier or document number contains
      the search term, ignoring case. */
  predicate Included(pur: Purchase, q: ReportQuery)
  {
    pur.year == q.year && pur.month == q.month && pur.status == "PAID"
    && HasWithholding(pur)
    && (MatchesIgnoringCase(pur.supplier, q.searchTerm)
        || MatchesIgnoringCase(pur.documentNumber, q.searchTerm))
  }

  /** `company.nif.substring(0, 9)`: the first nine characters, or the whole
      number when it is shorter. */
  function NifAO(companyNif: string): (r: string)
    ensures |r| == if |companyNif| < 9 then |companyNif| else 9
    ensures StartsWith(companyNif, r)
  {
    if |companyNif| <= 9 then companyNif else companyNif[..9]
  }

  /** The rate printed: the item's rate, or 6.5 when it has none. */
  function RateOf(it: PurchaseItem): (rate: real)
    ensures it.withholdingRate != 0.0 ==> rate == it.withholdingRate
    ensures it.withholdingRate == 0.0 ==> rate == 6.5
  {
    if it.withholdingRate != 0.0 then it.withholdingRate else 6.5
  }

  /** The row of item `it` of purchase `pur`, numbered `no`: the document
      total as both total and paid, the item total as the amount subject to
      withholding. */
  function RowFor(pur: Purchase, nifAO: string, it: PurchaseItem, no: nat): Row
  {
    Row(no, nifAO, pur.nif, pur.supplier, "(a)", "(b)", pur.documentNumber,
        pur.date, pur.date, pur.total, pur.total, it.total, RateOf(it), it.withholdingAmount)
  }

  /** The rows of a purchase's withholding items `its`, numbered from `first`. */
  function NumberedRows(pur: Purchase, nifAO: string, its: seq<PurchaseItem>, first: nat): (r: seq<Row>)
    ensures |r| == |its|
    ensures forall i :: 0 <= i < |its| ==> r[i] == RowFor(pur, nifAO, its[i], first + i)
  {
    if its == [] then [] else [RowFor(pur, nifAO, its[0], first)] + NumberedRows(pur, nifAO, its[1..], first + 1)
  }

  /** One row per item that withheld tax, numbered from 1 within the purchase. */
  function PurchaseRows(pur: Purchase, nifAO: string): (r: seq<Row>)
    ensures |r| == |Filter(pur.items, Withholds)|
    ensures forall i :: 0 <= i < |r| ==> r[i].no == i + 1 && r[i].withheld > 0.0
  {
    var its := Filter(pur.items, Withholds);
    assert forall i :: 0 <= i < |its| ==> its[i] in its;
    NumberedRows(pur, nifAO, its, 1)
  }

  /** `flatMap` over a list of purchases: each purchase's rows, one purchase
      after the other. */
  function RowsOf(purchases: seq<Purchase>, nifAO: string): seq<Row>
  {
    if purchases == [] then [] else PurchaseRows(purchases[0], nifAO) + RowsOf(purchases[1..], nifAO)
  }

  /** `data`: the reported purchases, in input order, each expanded to its
      withholding rows. */
  function ReportRows(purchases: seq<Purchase>, q: ReportQuery, companyNif: string): (r: seq<Row>)
    ensures forall x :: x in r ==> x.withheld > 0.0 && x.nifAO == NifAO(companyNif) && 1 <= x.no
    ensures forall x :: x in r ==> x.paid == x.total
    ensures r == RowsOf(Filter(purchases, (p: Purchase) => Included(p, q)), NifAO(companyNif))
    ensures forall x :: x in r ==>
              exists pur :: pur in purchases && Included(pur, q) && x in PurchaseRows(pur, NifAO(companyNif))
  {
    if purchases == [] then []
    else (if Included(purchases[0], q) then PurchaseRows(purchases[0], NifAO(companyNif)) else [])
         + ReportRows(purchases[1..], q, companyNif)
  }

  /** The footer. */
  datatype Totals = Totals(total: real, paid: real, subject: real, withheld: real)

  /** `totals`: the `reduce` that adds each row into the running totals. */
  function Footer(rows: seq<Row>): (t: Totals)
    ensures rows == [] ==> t == Totals(0.0, 0.0, 0.0, 0.0)
  {
    if rows == [] then Totals(0.0, 0.0, 0.0, 0.0)
    else
      var acc := Footer(rows[..|rows| - 1]);
      var row := rows[|rows| - 1];
      Totals(acc.total + row.total, acc.paid + row.paid, acc.subject + row.subject,
             acc.withheld + row.withheld)
  }

  function RowTotal(r: Row): real { r.total }
  function RowPaid(r: Row): real { r.paid }
  function RowSubject(r: Row): real { r.subject }
  function RowWithheld(r: Row): real { r.withheld }

  /** Each footer total is the sum of its column. */
  lemma {:induction false} FooterIsColumnSums(rows: seq<Row>)
    ensures Footer(rows) == Totals(Sum(rows, RowTotal), Sum(rows, RowPaid),
                                   Sum(rows, RowSubject), Sum(rows, RowWithheld))
    decreases |rows|
  {
    if rows != [] {
      FooterIsColumnSums(rows[..|rows| - 1]);
    }
  }

  function ItemWithheld(it: PurchaseItem): real { it.withholdingAmount }
  function ItemTotal(it: PurchaseItem): real { it.total }

  /** What a purchase adds to the withheld and subject columns: the amounts
      of its withholding items. */
  function PurchaseWithheld(pur: Purchase): real
  {
    Sum(Filter(pur.items, Withholds), ItemWithheld)
  }

  function PurchaseSubject(pur: Purchase): real
  {
    Sum(Filter(pur.items, Withholds), ItemTotal)
  }

  /** What a purchase adds to the total column: its document total once for
      every withholding item, since each row repeats it. */
  function PurchaseTotalColumn(pur: Purchase): real
  {
    Times(|Filter(pur.items, Withholds)|, pur.total)
  }

  lemma {:induction false} NumberedRowsWithheld(pur: Purchase, nifAO: string, its: seq<PurchaseItem>, first: nat)
    ensures Sum(NumberedRows(pur, nifAO, its, first), RowWithheld) == Sum(its, ItemWithheld)
    decreases |its|
  {
    if its != [] {
      var rest := NumberedRows(pur, nifAO, its[1..], first + 1);
      var row := RowFor(pur, nifAO, its[0], first);
      assert NumberedRows(pur, nifAO, its, first) == [row] + rest;
      NumberedRowsWithheld(pur, nifAO, its[1..], first + 1);
      SumCons(row, rest, RowWithheld);
      assert its == [its[0]] + its[1..];
      SumCons(its[0], its[1..], ItemWithheld);
    }
  }

  lemma {:induction false} NumberedRowsSubject(pur: Purchase, nifAO: string, its: seq<PurchaseItem>, first: nat)
    ensures Sum(NumberedRows(pur, nifAO, its, first), RowSubject) == Sum(its, ItemTotal)
    decreases |its|
  {
    if its != [] {
      var rest := NumberedRows(pur, nifAO, its[1..], first + 1);
      var row := RowFor(pur, nifAO, its[0], first);
      assert NumberedRows(pur, nifAO, its, first) == [row] + rest;
      NumberedRowsSubject(pur, nifAO, its[1..], first + 1);
      SumCons(row, rest, RowSubject);
      assert its == [its[0]] + its[1..];
      SumCons(its[0], its[1..], ItemTotal);
    }
  }

  /** `x` added up `n` times. */
  function Times(n: nat, x: real): real
  {
    if n == 0 then 0.0 else Times(n - 1, x) + x
  }

  /** Adding `x` up `n` times is multiplying it by `n`. */
  lemma {:induction false} TimesIsProduct(n: nat, x: real)
    ensures Times(n, x) == n as real * x
  {
    if n > 0 {
      TimesIsProduct(n - 1, x);
      assert n as real * x == (n - 1) as real * x + x;
    }
  }

  /** A purchase adds its document total to the total column once per
      withholding item. */
  lemma TotalColumnRepeatsDocumentTotal(pur: Purchase, rows: nat)
    requires rows == |Filter(pur.items, Withholds)|
    ensures PurchaseTotalColumn(pur) == rows as real * pur.total
  {
    TimesIsProduct(rows, pur.total);
  }

  lemma {:induction false} NumberedRowsTotal(pur: Purchase, nifAO: string, its: seq<PurchaseItem>, first: nat)
    ensures Sum(NumberedRows(pur, nifAO, its, first), RowTotal) == Times(|its|, pur.total)
    decreases |its|
  {
    if its != [] {
      var rest := NumberedRows(pur, nifAO, its[1..], first + 1);
      var row := RowFor(pur, nifAO, its[0], first);
      assert NumberedRows(pur, nifAO, its, first) == [row] + rest;
      NumberedRowsTotal(pur, nifAO, its[1..], first + 1);
      SumCons(row, rest, RowTotal);
    }
  }

  lemma {:induction false} WithheldOverPurchases(purchases: seq<Purchase>, q: ReportQuery, companyNif: string)
    ensures Sum(ReportRows(purchases, q, companyNif), RowWithheld)
            == Sum(Filter(purchases, (p: Purchase) => Included(p, q)), PurchaseWithheld)
    decreases |purchases|
  {
    if purchases != [] {
      var inc := (p: Purchase) => Included(p, q);
      var p := purchases[0];
      var own := if inc(p) then PurchaseRows(p, NifAO(companyNif)) else [];
      var rest := ReportRows(purchases[1..], q, companyNif);
      WithheldOverPurchases(purchases[1..], q, companyNif);
      SumAppend(own, rest, RowWithheld);
      if inc(p) {
        NumberedRowsWithheld(p, NifAO(companyNif), Filter(p.items, Withholds), 1);
        SumCons(p, Filter(purchases[1..], inc), PurchaseWithheld);
      }
    }
  }

  lemma {:induction false} SubjectOverPurchases(purchases: seq<Purchase>, q: ReportQuery, companyNif: string)
    ensures Sum(ReportRows(purchases, q, companyNif), RowSubject)
            == Sum(Filter(purchases, (p: Purchase) => Included(p, q)), PurchaseSubject)
    decreases |purchases|
  {
    if purchases != [] {
      var inc := (p: Purchase) => Included(p, q);
      var p := purchases[0];
      var own := if inc(p) then PurchaseRows(p, NifAO(companyNif)) else [];
      var rest := ReportRows(purchases[1..], q, companyNif);
      SubjectOverPurchases(purchases[1..], q, companyNif);
      SumAppend(own, rest, RowSubject);
      if inc(p) {
        NumberedRowsSubject(p, NifAO(companyNif), Filter(p.items, Withholds), 1);
        SumCons(p, Filter(purchases[1..], inc), PurchaseSubject);
      }
    }
  }

  lemma {:induction false} TotalOverPurchases(purchases: seq<Purchase>, q: ReportQuery, companyNif: string)
    ensures Sum(ReportRows(purchases, q, companyNif), RowTotal)
            == Sum(Filter(purchases, (p: Purchase) => Included(p, q)), PurchaseTotalColumn)
    decreases |purchases|
  {
    if purchases != [] {
      var inc := (p: Purchase) => Included(p, q);
      var p := purchases[0];
      var own := if inc(p) then PurchaseRows(p, NifAO(companyNif)) else [];
      var rest := ReportRows(purchases[1..], q, companyNif);
      TotalOverPurchases(purchases[1..], q, companyNif);
      SumAppend(own, rest, RowTotal);
      if inc(p) {
        NumberedRowsTotal(p, NifAO(companyNif), Filter(p.items, Withholds), 1);
        SumCons(p, Filter(purchases[1..], inc), PurchaseTotalColumn);
      }
    }
  }

  /** The footer adds, over the reported purchases only, the tax withheld on
      each withholding item, the item totals subject to it, and each
      purchase's document total once per withholding row; paid equals total. */
  lemma FooterOverPurchases(purchases: seq<Purchase>, q: ReportQuery, companyNif: string)
    ensures var reported := Filter(purchases, (p: Purchase) => Included(p, q));
            var t := Footer(ReportRows(purchases, q, companyNif));
            t.withheld == Sum(reported, PurchaseWithheld)
            && t.subject == Sum(reported, PurchaseSubject)
            && t.total == Sum(reported, PurchaseTotalColumn)
            && t.paid == t.total
  {
    var rows := ReportRows(purchases, q, companyNif);
    FooterIsColumnSums(rows);
    PaidEqualsTotal(rows);
    WithheldOverPurchases(purchases, q, companyNif);
    SubjectOverPurchases(purchases, q, companyNif);
    TotalOverPurchases(purchases, q, companyNif);
  }

  /** Paid repeats the document total on every row. */
  lemma {:induction false} PaidEqualsTotal(rows: seq<Row>)
    requires forall x :: x in rows ==> x.paid == x.total
    ensures Sum(rows, RowPaid) == Sum(rows, RowTotal)
    decreases |rows|
  {
    if rows != [] {
      assert forall x :: x in rows[..|rows| - 1] ==> x in rows;
      PaidEqualsTotal(rows[..|rows| - 1]);
    }
  }

  /** Requiring some withholding item in the purchase filter changes nothing:
      a purchase without one would contribute no rows anyway. */
  lemma {:induction false} WithholdingTestIsRedundant(pur: Purchase, nifAO: string)
    requires !HasWithholding(pur)
    ensures PurchaseRows(pur, nifAO) == []
  {
    assert forall x :: x in pur.items ==> !Withholds(x);
    FilterKeepsNone(pur.items, Withholds);
  }
}
