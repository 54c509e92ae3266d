/** The licence administration screen of `CRMManager.tsx`: the countdown to
    a company's licence expiry, the price of a new licence, and the tabs that
    sort companies into active, expired and pending. Instants are
    milliseconds since the epoch, passed in. */
module CrmManager {
  import opened Common

  const MsPerDay: int := 1000 * 60 * 60 * 24
  const MsPerHour: int := 1000 * 60 * 60

  datatype LicenceStatus = Expired | Warning | Active

  datatype TimeRemaining = TimeRemaining(days: int, hours: int, status: LicenceStatus)

  /** `getTimeRemaining`: nothing left once the expiry instant is reached;
      otherwise the whole days left, the whole hours left over, and a warning
      in the last week. */
  function GetTimeRemaining(validUntil: int, now: int): (t: TimeRemaining)
    ensures validUntil - now <= 0 <==> t.status == Expired
    ensures t.status == Expired ==> t.days == 0 && t.hours == 0
    ensures t.status != Expired ==>
              0 <= t.days && 0 <= t.hours < 24
              && t.days * MsPerDay + t.hours * MsPerHour <= validUntil - now
              < t.days * MsPerDay + (t.hours + 1) * MsPerHour
    ensures t.status == Warning <==> t.status != Expired && t.days <= 7
  {
    var diff := validUntil - now;
    if diff <= 0 then TimeRemaining(0, 0, Expired)
    else
      var days := diff / MsPerDay;
      var hours := (diff % MsPerDay) / MsPerHour;
      TimeRemaining(days, hours, if days <= 7 then Warning else Active)
  }

  /** Waiting longer never leaves more days: the countdown does not increase
      as `now` advances. */
  lemma CountdownNeverGrows(validUntil: int, now1: int, now2: int)
    requires now1 <= now2
    ensures GetTimeRemaining(validUntil, now2).days <= GetTimeRemaining(validUntil, now1).days
  {
    var d1 := validUntil - now1;
    var d2 := validUntil - now2;
    if d2 > 0 {
      DivMonotone(d2, d1, MsPerDay);
    }
  }

  lemma DivMonotone(a: int, b: int, d: int)
    requires 0 <= a <= b && 0 < d
    ensures a / d <= b / d
  {
    var qa, qb := a / d, b / d;
    assert qa * d <= a <= b < (qb + 1) * d;
    MulCancel(qa, qb + 1, d);
  }

  lemma MulCancel(x: int, y: int, d: int)
    requires 0 < d && x * d < y * d
    ensures x < y
  {
    assert (y - x) * d == y * d - x * d;
  }

  datatype LicencePlan = Starter | Professional | Enterprise

  /** The monthly price of each plan, in kwanzas. */
  function MonthlyPrice(plan: LicencePlan): (price: real)
    ensures plan == Starter ==> price == 15000.0
    ensures plan == Professional ==> price == 35000.0
    ensures plan == Enterprise ==> price == 85000.0
  {
    if plan == Starter then 15000.0 else if plan == Professional then 35000.0 else 85000.0
  }

  /** The "Total Líquido" of the licence dialog: months times the monthly
      price, less the discount percentage. */
  function LicenceTotal(plan: LicencePlan, months: real, discount: real): (total: real)
    ensures discount == 0.0 ==> total == months * MonthlyPrice(plan)
    ensures discount == 100.0 ==> total == 0.0
  {
    months * MonthlyPrice(plan) * (1.0 - discount / 100.0)
  }

  /** With no discount the total is the undiscounted price, with 100% it is
      0, and any discount between 0 and 100 keeps it between the two. */
  lemma LicenceTotalBounds(plan: LicencePlan, months: real, discount: real)
    requires months >= 0.0
    ensures LicenceTotal(plan, months, 0.0) == months * MonthlyPrice(plan)
    ensures LicenceTotal(plan, months, 100.0) == 0.0
    ensures 0.0 <= discount <= 100.0 ==>
              0.0 <= LicenceTotal(plan, months, discount) <= months * MonthlyPrice(plan)
  {
    var full := months * MonthlyPrice(plan);
    assert full >= 0.0;
    if 0.0 <= discount <= 100.0 {
      var keep := 1.0 - discount / 100.0;
      assert 0.0 <= keep <= 1.0;
      assert LicenceTotal(plan, months, discount) == full * keep;
    }
  }

  datatype Company = Company(name: string, nif: string, status: string, validUntil: int)

  datatype Tab = AllTab | ActiveTab | ExpiredTab | PendingTab

  /** A licence has lapsed once its expiry instant is in the past. */
  predicate IsExpired(c: Company, now: int)
  {
    c.validUntil < now
  }

  /** `matchTab`: which companies each tab of the manager lists. */
  predicate TabMatch(c: Company, tab: Tab, now: int)
  {
    match tab
    case AllTab => true
    case ActiveTab => c.status == "ACTIVE" && !IsExpired(c, now)
    case ExpiredTab => c.status == "EXPIRED" || IsExpired(c, now)
    case PendingTab => c.status == "PRE-REGISTRO"
  }

  /** The "active" and "expired" tabs never share a company; the pending tab
      holds exactly the pre-registered companies. */
  lemma TabsPartition(c: Company, now: int)
    ensures !(TabMatch(c, ActiveTab, now) && TabMatch(c, ExpiredTab, now))
    ensures TabMatch(c, PendingTab, now) <==> c.status == "PRE-REGISTRO"
    ensures TabMatch(c, AllTab, now)
  {
  }

  /** The search matches the company name ignoring case, or the NIF exactly
      as typed. */
  predicate CompanyMatch(c: Company, term: string, tab: Tab, now: int)
  {
    (MatchesIgnoringCase(c.name, term) || Includes(c.nif, term)) && TabMatch(c, tab, now)
  }

  /** `filteredCompanies`: the companies of the tab that match the search, in
      their order. */
  function FilteredCompanies(companies: seq<Company>, term: string, tab: Tab, now: int): (r: seq<Company>)
    ensures IsSubsequence(r, companies)
    ensures forall c :: c in r <==> c in companies && CompanyMatch(c, term, tab, now)
    ensures forall c :: multiset(r)[c] == if CompanyMatch(c, term, tab, now) then multiset(companies)[c] else 0
  {
    FilterIsSubsequence(companies, (c: Company) => CompanyMatch(c, term, tab, now));
    FilterMultiplicity(companies, (c: Company) => CompanyMatch(c, term, tab, now));
    Filter(companies, (c: Company) => CompanyMatch(c, term, tab, now))
  }

  /** A company's licence is counted as expired by the tab exactly when the
      countdown, taken at the same instant, has run out or it is marked
      `EXPIRED` — except at the expiry instant itself, which the countdown
      already treats as expired and the tab does not. */
  lemma TabAgreesWithCountdown(c: Company, now: int)
    ensures IsExpired(c, now) ==> GetTimeRemaining(c.validUntil, now).status == Expired
    ensures GetTimeRemaining(c.validUntil, now).status == Expired ==> IsExpired(c, now) || c.validUntil == now
  {
  }
}
