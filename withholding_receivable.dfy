/** The withholding-tax map for sales, `WithholdingReceivable.tsx`: the
    certified invoices of one month on which the client withheld tax, one
    numbered row each, and the total withheld. An invoice's date is given as
    the year and month it falls in. */
module WithholdingReceivable {
  import opened Common

  /** The part of an invoice the report reads; an absent withheld amount is 0. */
  datatype Invoice = Invoice(clientName: string, number: string, date: string,
                             year: int, month: int, invoiceType: string,
                             isCertified: bool, subtotal: real, withholdingAmount: real)

  datatype Row = Row(no: nat, client: string, date: string, docNo: string,
                     invoiceType: string, rate: string, base: real,
                     creditNote: real, withheld: real)

  /** The year, month and search box of the screen. */
  datatype ReportQuery = ReportQuery(year: int, month: int, searchTerm: string)

  /** An invoice is reported when it falls in the selected month, is
      certified, had tax withheld, and its client name or number contains the
      search term, ignoring case. */
  predicate Included(inv: Invoice, q: ReportQuery)
  {
    inv.year == q.year && inv.month == q.month && inv.isCertified
    && inv.withholdingAmount > 0.0
    && (MatchesIgnoringCase(inv.clientName, q.searchTerm)
        || MatchesIgnoringCase(inv.number, q.searchTerm))
  }

  /** The row of an invoice: its subtotal as the base, no credit note, and
      the fixed 6.5% rate label. */
  function RowFor(inv: Invoice, no: nat): Row
  {
    Row(no, inv.clientName, inv.date, inv.number, inv.invoiceType, "6.5%",
        inv.subtotal, 0.0, inv.withholdingAmount)
  }

  function NumberedRows(invoices: seq<Invoice>, first: nat): (r: seq<Row>)
    ensures |r| == |invoices|
    ensures forall i :: 0 <= i < |invoices| ==> r[i] == RowFor(invoices[i], first + i)
  {
    if invoices == [] then [] else [RowFor(invoices[0], first)] + NumberedRows(invoices[1..], first + 1)
  }

  /** `data`: one row per reported invoice, in input order, numbered 1 to n. */
  function ReportRows(invoices: seq<Invoice>, q: ReportQuery): (r: seq<Row>)
    ensures |r| == |Filter(invoices, (inv: Invoice) => Included(inv, q))|
    ensures forall i :: 0 <= i < |r| ==>
              r[i].no == i + 1 && r[i].withheld > 0.0 && r[i].creditNote == 0.0 && r[i].rate == "6.5%"
    ensures forall i :: 0 <= i < |r| ==>
              exists inv :: inv in invoices && Included(inv, q) && r[i] == RowFor(inv, i + 1)
    ensures forall i :: 0 <= i < |r| ==>
              r[i] == RowFor(Filter(invoices, (inv: Invoice) => Included(inv, q))[i], i + 1)
  {
    var reported := Filter(invoices, (inv: Invoice) => Included(inv, q));
    assert forall i :: 0 <= i < |reported| ==> reported[i] in reported;
    NumberedRows(reported, 1)
  }

  function RowWithheld(r: Row): real { r.withheld }
  function InvoiceWithheld(inv: Invoice): real { inv.withholdingAmount }

  /** `totalWithheld`: the `reduce` over the rows. */
  function TotalWithheld(rows: seq<Row>): (t: real)
    ensures rows == [] ==> t == 0.0
  {
    Sum(rows, RowWithheld)
  }

  lemma {:induction false} NumberedRowsWithheld(invoices: seq<Invoice>, first: nat)
    ensures Sum(NumberedRows(invoices, first), RowWithheld) == Sum(invoices, InvoiceWithheld)
    decreases |invoices|
  {
    if invoices != [] {
      var rest := NumberedRows(invoices[1..], first + 1);
      assert NumberedRows(invoices, first) == [RowFor(invoices[0], first)] + rest;
      NumberedRowsWithheld(invoices[1..], first + 1);
      SumCons(RowFor(invoices[0], first), rest, RowWithheld);
      assert invoices == [invoices[0]] + invoices[1..];
      SumCons(invoices[0], invoices[1..], InvoiceWithheld);
    }
  }

  lemma {:induction false} SumPositive(rows: seq<Row>)
    requires forall i :: 0 <= i < |rows| ==> rows[i].withheld > 0.0
    ensures rows != [] <==> Sum(rows, RowWithheld) > 0.0
    ensures Sum(rows, RowWithheld) >= 0.0
    decreases |rows|
  {
    if rows != [] {
      SumPositive(rows[..|rows| - 1]);
    }
  }

  /** The total withheld is the tax withheld on the reported invoices; it is
      0 exactly when no invoice is reported, and positive otherwise. */
  lemma TotalWithheldOverInvoices(invoices: seq<Invoice>, q: ReportQuery)
    ensures TotalWithheld(ReportRows(invoices, q))
            == Sum(Filter(invoices, (inv: Invoice) => Included(inv, q)), InvoiceWithheld)
    ensures TotalWithheld(ReportRows(invoices, q)) == 0.0 <==> ReportRows(invoices, q) == []
  {
    NumberedRowsWithheld(Filter(invoices, (inv: Invoice) => Included(inv, q)), 1);
    SumPositive(ReportRows(invoices, q));
  }
}
