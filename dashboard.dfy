/** The certificates dashboard: the certificates filtered by four selections and a payment
    date range, and three KPIs. Dates are read through a `Calendar`, which stands for moment's
    parsing and the current time. */
module Dashboard {
  import opened JsValues
  import opened Records
  import opened QueryParams
  import Seqs

  /** How dates are read: `instant` parses a value to a point in time (`None` for an invalid
      date), `day` to its calendar day, and `today`/`inThreeMonths` are the days of now and of
      now plus three months. */
  datatype Calendar = Calendar(
    instant: JsValue -> Option<int>, day: JsValue -> Option<int>, today: int, inThreeMonths: int)

  /** The four selections; `''` stands for "all". */
  datatype Selections = Selections(modality: string, department: string, documentStatus: string, noticeStatus: string)

  /** `!selected || value === selected`. */
  predicate Matches(selected: string, value: JsValue)
  {
    selected == "" || value == Str(selected)
  }

  /** `moment(v).isBetween(start, end)`: strictly inside, and false when any date is invalid. */
  predicate StrictlyBetween(cal: Calendar, v: JsValue, start: string, end: string)
  {
    var x, lo, hi := cal.instant(v), cal.instant(Str(start)), cal.instant(Str(end));
    x.Some? && lo.Some? && hi.Some? && lo.value < x.value < hi.value
  }

  predicate Kept(cal: Calendar, s: Selections, start: string, end: string, c: Certificate)
  {
    Matches(s.modality, c.modality) && Matches(s.department, c.department) &&
    Matches(s.documentStatus, c.documentStatus) && Matches(s.noticeStatus, c.noticeStatusDescription) &&
    StrictlyBetween(cal, c.paymentDate, start, end)
  }

  /** `filterCertificates`, the filter itself. */
  function Filtered(certs: seq<Certificate>, cal: Calendar, s: Selections, start: string, end: string): seq<Certificate>
  {
    Seqs.Filter(certs, (c: Certificate) => Kept(cal, s, start, end, c))
  }

  /** The filtered list keeps, in their order, exactly the certificates that match every
      non-empty selection and were paid strictly inside the date range. */
  lemma FilteredSpec(certs: seq<Certificate>, cal: Calendar, s: Selections, start: string, end: string)
    ensures Seqs.IsSubsequence(Filtered(certs, cal, s, start, end), certs)
    ensures forall c :: c in Filtered(certs, cal, s, start, end) <==>
      c in certs &&
      (s.modality == "" || c.modality == Str(s.modality)) &&
      (s.department == "" || c.department == Str(s.department)) &&
      (s.documentStatus == "" || c.documentStatus == Str(s.documentStatus)) &&
      (s.noticeStatus == "" || c.noticeStatusDescription == Str(s.noticeStatus)) &&
      StrictlyBetween(cal, c.paymentDate, start, end)
  {
    Seqs.FilterIsSubsequence(certs, (c: Certificate) => Kept(cal, s, start, end, c));
    Seqs.FilterMembers(certs, (c: Certificate) => Kept(cal, s, start, end, c));
  }

  /** With every selection empty, only the payment date filters. */
  lemma EmptySelectionsFilterByDateOnly(certs: seq<Certificate>, cal: Calendar, start: string, end: string)
    ensures Filtered(certs, cal, Selections("", "", "", ""), start, end) ==
      Seqs.Filter(certs, (c: Certificate) => StrictlyBetween(cal, c.paymentDate, start, end))
  {
    Seqs.FilterCongruent(certs, (c: Certificate) => Kept(cal, Selections("", "", "", ""), start, end, c),
                         (c: Certificate) => StrictlyBetween(cal, c.paymentDate, start, end));
  }

  function Amount(c: Certificate): int { AmountOrZero(c.totalNoticeAmount) }

  /** `totalPaid`: the amounts of the given certificates whose payment date is not null. */
  function TotalPaid(filtered: seq<Certificate>): int
  {
    Seqs.Sum(Seqs.Filter(filtered, (c: Certificate) => c.paymentDate != Null), Amount)
  }

  /** `totalOwed`: the amounts of the given certificates whose notice is 'ACTIVO'. */
  function TotalOwed(certs: seq<Certificate>): int
  {
    Seqs.Sum(Seqs.Filter(certs, (c: Certificate) => c.noticeStatusDescription == Str("ACTIVO")), Amount)
  }

  /** An expiration date that is set and falls between today and three months on, both days
      included. */
  predicate ExpiresSoon(cal: Calendar, v: JsValue)
  {
    Truthy(v) && cal.day(v).Some? && cal.today <= cal.day(v).value <= cal.inThreeMonths
  }

  predicate Upcoming(cal: Calendar, c: Certificate)
  {
    ExpiresSoon(cal, c.certificateExpirationDate) || ExpiresSoon(cal, c.permissionExpirationDate)
  }

  /** `upcomingExpirations`. */
  function UpcomingExpirations(cal: Calendar, certs: seq<Certificate>): nat
  {
    Seqs.Count(certs, (c: Certificate) => Upcoming(cal, c))
  }

  /** The KPIs' meaning: the expiration count never exceeds the certificates and counts
      exactly those with a date in the window; with no negative amount the paid total is
      between 0 and the filtered certificates' amount, and the owed total between 0 and all
      certificates' amount. */
  lemma KpisSpec(cal: Calendar, certs: seq<Certificate>, filtered: seq<Certificate>)
    ensures UpcomingExpirations(cal, certs) <= |certs|
    ensures forall c :: c in Seqs.Filter(certs, (c: Certificate) => Upcoming(cal, c)) <==>
      c in certs && (ExpiresSoon(cal, c.certificateExpirationDate) || ExpiresSoon(cal, c.permissionExpirationDate))
    ensures (forall i :: 0 <= i < |filtered| ==> Amount(filtered[i]) >= 0) ==>
      0 <= TotalPaid(filtered) <= Seqs.Sum(filtered, Amount)
    ensures (forall i :: 0 <= i < |certs| ==> Amount(certs[i]) >= 0) ==>
      0 <= TotalOwed(certs) <= Seqs.Sum(certs, Amount)
  {
    Seqs.FilterMembers(certs, (c: Certificate) => Upcoming(cal, c));
    if forall i :: 0 <= i < |filtered| ==> Amount(filtered[i]) >= 0 {
      Seqs.FilterSumBounded(filtered, (c: Certificate) => c.paymentDate != Null, Amount);
    }
    if forall i :: 0 <= i < |certs| ==> Amount(certs[i]) >= 0 {
      Seqs.FilterSumBounded(certs, (c: Certificate) => c.noticeStatusDescription == Str("ACTIVO"), Amount);
    }
  }

  class DashboardComponent {
    var loading: bool
    var certificates: seq<Certificate>
    var filteredCertificates: seq<Certificate>
    var totalPaid: int
    var totalOwed: int
    var upcomingExpirations: int
    var start: string
    var end: string
    var selectedModality: string
    var selectedDepartment: string
    var selectedDocumentStatus: string
    var selectedNoticeStatus: string

    /** A fresh dashboard; `start` and `end` are the first of the month and today, given here. */
    constructor(startOfMonth: string, today: string)
      ensures !loading && certificates == [] && filteredCertificates == []
      ensures totalPaid == 0 && totalOwed == 0 && upcomingExpirations == 0
      ensures start == startOfMonth && end == today
      ensures selectedModality == "" && selectedDepartment == "" && selectedDocumentStatus == "" && selectedNoticeStatus == ""
    {
      loading := false;
      certificates := [];
      filteredCertificates := [];
      totalPaid := 0;
      totalOwed := 0;
      upcomingExpirations := 0;
      start := startOfMonth;
      end := today;
      selectedModality := "";
      selectedDepartment := "";
      selectedDocumentStatus := "";
      selectedNoticeStatus := "";
    }

    function Selected(): Selections
      reads this
    {
      Selections(selectedModality, selectedDepartment, selectedDocumentStatus, selectedNoticeStatus)
    }

    /** `calculateKPIs`: the paid total over the filtered certificates, the owed total and the
        expiration count over all of them. */
    method CalculateKpis(cal: Calendar)
      modifies this
      ensures totalPaid == TotalPaid(filteredCertificates)
      ensures totalOwed == TotalOwed(certificates)
      ensures upcomingExpirations == UpcomingExpirations(cal, certificates)
      ensures loading == old(loading) && certificates == old(certificates) && filteredCertificates == old(filteredCertificates)
      ensures start == old(start) && end == old(end) && Selected() == old(Selected())
    {
      totalPaid := Seqs.Sum(Seqs.Filter(filteredCertificates, (c: Certificate) => c.paymentDate != Null), Amount);
      totalOwed := Seqs.Sum(Seqs.Filter(certificates, (c: Certificate) => c.noticeStatusDescription == Str("ACTIVO")), Amount);
      upcomingExpirations := |Seqs.Filter(certificates, (c: Certificate) => Upcoming(cal, c))|;
    }

    /** `filterCertificates`: refilters with the current selections and dates, then
        recomputes the KPIs. */
    method FilterCertificates(cal: Calendar)
      modifies this
      ensures filteredCertificates == Filtered(certificates, cal, Selected(), start, end)
      ensures totalPaid == TotalPaid(filteredCertificates)
      ensures totalOwed == TotalOwed(certificates)
      ensures upcomingExpirations == UpcomingExpirations(cal, certificates)
      ensures loading == old(loading) && certificates == old(certificates)
      ensures start == old(start) && end == old(end) && Selected() == old(Selected())
    {
      var s, lo, hi := Selected(), start, end;
      filteredCertificates := Seqs.Filter(certificates, (c: Certificate) => Kept(cal, s, lo, hi, c));
      CalculateKpis(cal);
    }

    /** `applyFilter`: exactly the named selection changes (to `''` when cleared), then the
        list is refiltered; an unknown type only refilters. */
    method ApplyFilter(filterType: string, value: Option<string>, cal: Calendar)
      modifies this
      ensures Selected() == (match filterType
        case "modality" => old(Selected()).(modality := OrEmpty(value))
        case "department" => old(Selected()).(department := OrEmpty(value))
        case "documentStatus" => old(Selected()).(documentStatus := OrEmpty(value))
        case "noticeStatus" => old(Selected()).(noticeStatus := OrEmpty(value))
        case _ => old(Selected()))
      ensures filteredCertificates == Filtered(certificates, cal, Selected(), start, end)
      ensures totalPaid == TotalPaid(filteredCertificates)
      ensures totalOwed == TotalOwed(certificates)
      ensures upcomingExpirations == UpcomingExpirations(cal, certificates)
      ensures loading == old(loading) && certificates == old(certificates)
      ensures start == old(start) && end == old(end)
    {
      match filterType {
        case "modality" => selectedModality := OrEmpty(value);
        case "department" => selectedDepartment := OrEmpty(value);
        case "documentStatus" => selectedDocumentStatus := OrEmpty(value);
        case "noticeStatus" => selectedNoticeStatus := OrEmpty(value);
        case _ =>
      }
      FilterCertificates(cal);
    }

    /** `filterDates`: with both dates given they are stored and the list refiltered; with
        either missing nothing happens. */
    method FilterDates(startDate: Option<int>, endDate: Option<int>, format: int -> string, cal: Calendar)
      modifies this
      ensures startDate.Some? && endDate.Some? ==>
        start == format(startDate.value) && end == format(endDate.value) &&
        filteredCertificates == Filtered(certificates, cal, Selected(), start, end) &&
        totalPaid == TotalPaid(filteredCertificates) && totalOwed == TotalOwed(certificates) &&
        upcomingExpirations == UpcomingExpirations(cal, certificates)
      ensures !(startDate.Some? && endDate.Some?) ==>
        start == old(start) && end == old(end) && filteredCertificates == old(filteredCertificates) &&
        totalPaid == old(totalPaid) && totalOwed == old(totalOwed) && upcomingExpirations == old(upcomingExpirations)
      ensures loading == old(loading) && certificates == old(certificates) && Selected() == old(Selected())
    {
      if startDate.Some? && endDate.Some? {
        start := format(startDate.value);
        end := format(endDate.value);
        FilterCertificates(cal);
      }
    }

    /** `fetchDashboard`, the request half: every certificate, with no parameter. */
    method FetchDashboard() returns (req: Entries)
      modifies this
      ensures loading && req == []
      ensures certificates == old(certificates) && filteredCertificates == old(filteredCertificates)
      ensures totalPaid == old(totalPaid) && totalOwed == old(totalOwed) && upcomingExpirations == old(upcomingExpirations)
      ensures start == old(start) && end == old(end) && Selected() == old(Selected())
    {
      loading := true;
      req := [];
    }

    /** The response to `fetchDashboard`: the certificates are stored, filtered with the
        current selections and dates, and the KPIs computed. */
    method OnFetchResponse(data: seq<Certificate>, cal: Calendar)
      modifies this
      ensures certificates == data && !loading
      ensures filteredCertificates == Filtered(data, cal, Selected(), start, end)
      ensures totalPaid == TotalPaid(filteredCertificates)
      ensures totalOwed == TotalOwed(data)
      ensures upcomingExpirations == UpcomingExpirations(cal, data)
      ensures start == old(start) && end == old(end) && Selected() == old(Selected())
    {
      certificates := data;
      filteredCertificates := certificates;
      FilterCertificates(cal);
      CalculateKpis(cal);
      loading := false;
    }
  }
}
