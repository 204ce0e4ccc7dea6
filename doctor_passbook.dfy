/**
 * The doctor's passbook: the certificate filter chips, the header total,
 * the quick view, and the export sheet that needs a council before it
 * prepares a renewal pack. The toasts become the returned outcome.
 */
module DoctorPassbook {
  import opened Wrappers
  import opened Seqs
  import MockData
  import opened DoctorMockData

  /** The five values of the `filter` state; `speaker` has no branch of its own. */
  datatype CertificateFilter = AllCertificatesFilter | DmcOnly | RmcOnly | SpeakerOnly | LockedOnly

  /** The `filter` callback: the first matching `if`, and `true` when none matches. */
  predicate KeepCertificate(filter: CertificateFilter, cert: Certificate) {
    match filter
    case AllCertificatesFilter => true
    case DmcOnly => cert.council == "DMC"
    case RmcOnly => cert.council == "RMC"
    case LockedOnly => cert.status == Pending
    case SpeakerOnly => true
  }

  function CertificateKeeper(filter: CertificateFilter): Certificate -> bool {
    (cert: Certificate) => KeepCertificate(filter, cert)
  }

  /** `filteredCertificates` over any list of certificates. */
  function FilterCertificates(certs: seq<Certificate>, filter: CertificateFilter): seq<Certificate> {
    Filter(certs, CertificateKeeper(filter))
  }

  /** The list the page shows for a filter. */
  function FilteredCertificates(filter: CertificateFilter): seq<Certificate> {
    FilterCertificates(AllCertificates, filter)
  }

  /** `all`, and the unhandled `speaker`, keep every certificate. */
  lemma AllAndSpeakerKeepEverything(certs: seq<Certificate>)
    ensures FilterCertificates(certs, AllCertificatesFilter) == certs
    ensures FilterCertificates(certs, SpeakerOnly) == certs
  {
    FilterAll(certs, CertificateKeeper(AllCertificatesFilter));
    FilterAll(certs, CertificateKeeper(SpeakerOnly));
  }

  /** `DMC` and `RMC` keep exactly the certificates of that council, and `locked` the pending ones. */
  lemma FilterSelects(certs: seq<Certificate>)
    ensures FilterCertificates(certs, DmcOnly) == Filter(certs, (c: Certificate) => c.council == "DMC")
    ensures FilterCertificates(certs, RmcOnly) == Filter(certs, (c: Certificate) => c.council == "RMC")
    ensures FilterCertificates(certs, LockedOnly) == Filter(certs, (c: Certificate) => c.status == Pending)
  {
    FilterExt(certs, CertificateKeeper(DmcOnly), (c: Certificate) => c.council == "DMC");
    FilterExt(certs, CertificateKeeper(RmcOnly), (c: Certificate) => c.council == "RMC");
    FilterExt(certs, CertificateKeeper(LockedOnly), (c: Certificate) => c.status == Pending);
  }

  /**
   * Every filter keeps an order-preserving subsequence; a certificate is
   * shown iff it passes the filter.
   */
  lemma FilterCertificatesSpec(certs: seq<Certificate>, filter: CertificateFilter)
    ensures IsSubsequence(FilterCertificates(certs, filter), certs)
    ensures forall c :: c in FilterCertificates(certs, filter) <==> c in certs && KeepCertificate(filter, c)
  {
    FilterIsSubsequence(certs, CertificateKeeper(filter));
    forall c | c in certs && KeepCertificate(filter, c) ensures c in FilterCertificates(certs, filter) {
      var i :| 0 <= i < |certs| && certs[i] == c;
    }
  }

  function Hours(): Certificate -> real {
    (c: Certificate) => c.hours
  }

  /** `allCertificates.reduce((sum, c) => sum + c.hours, 0)`. */
  function TotalHours(certs: seq<Certificate>): real {
    SumReal(certs, Hours())
  }

  /**
   * The header total covers every certificate: it is the hours the
   * selected filter shows plus the hours it hides, whatever the filter.
   */
  lemma TotalHoursSplitsByFilter(certs: seq<Certificate>, filter: CertificateFilter)
    ensures TotalHours(certs) ==
            TotalHours(FilterCertificates(certs, filter)) +
            TotalHours(Filter(certs, Not(CertificateKeeper(filter))))
  {
    SumRealSplit(certs, Hours(), CertificateKeeper(filter));
  }

  /** When every certificate is DMC or RMC, the total is the DMC hours plus the RMC hours. */
  lemma TotalHoursByCouncil(certs: seq<Certificate>)
    requires forall i :: 0 <= i < |certs| ==> certs[i].council == "DMC" || certs[i].council == "RMC"
    ensures TotalHours(certs) ==
            TotalHours(FilterCertificates(certs, DmcOnly)) + TotalHours(FilterCertificates(certs, RmcOnly))
  {
    TotalHoursSplitsByFilter(certs, DmcOnly);
    FilterExt(certs, Not(CertificateKeeper(DmcOnly)), CertificateKeeper(RmcOnly));
  }

  /** What the export button reports. */
  datatype ExportOutcome = MissingCouncil | PackReady(council: MockData.Council)

  /** The passbook's state. */
  class PassbookPage {
    var filter: CertificateFilter
    var selectedCouncil: Option<MockData.Council>
    var showExportSheet: bool
    var selectedCertificate: Option<Certificate>
    var showQuickView: bool

    constructor ()
      ensures filter == AllCertificatesFilter && selectedCouncil == None
      ensures !showExportSheet && selectedCertificate == None && !showQuickView
    {
      filter := AllCertificatesFilter;
      selectedCouncil := None;
      showExportSheet := false;
      selectedCertificate := None;
      showQuickView := false;
    }

    /** The list under the chips. */
    function Shown(): seq<Certificate>
      reads this
    {
      FilteredCertificates(filter)
    }

    /** A filter chip. */
    method SetFilter(f: CertificateFilter)
      modifies this
      ensures filter == f
      ensures selectedCouncil == old(selectedCouncil) && showExportSheet == old(showExportSheet)
      ensures selectedCertificate == old(selectedCertificate) && showQuickView == old(showQuickView)
    {
      filter := f;
    }

    /** `handleCertificateClick`: the certificate is selected and the quick view opens. */
    method HandleCertificateClick(cert: Certificate)
      modifies this
      ensures selectedCertificate == Some(cert) && showQuickView
      ensures filter == old(filter) && selectedCouncil == old(selectedCouncil)
      ensures showExportSheet == old(showExportSheet)
    {
      selectedCertificate := Some(cert);
      showQuickView := true;
    }

    /** "Export Pack" opens the sheet; the sheet's own close sets it back. */
    method SetExportSheetOpen(open: bool)
      modifies this
      ensures showExportSheet == open
      ensures filter == old(filter) && selectedCouncil == old(selectedCouncil)
      ensures selectedCertificate == old(selectedCertificate) && showQuickView == old(showQuickView)
    {
      showExportSheet := open;
    }

    /** A council button in the sheet. */
    method SelectCouncil(c: MockData.Council)
      modifies this
      ensures selectedCouncil == Some(c)
      ensures filter == old(filter) && showExportSheet == old(showExportSheet)
      ensures selectedCertificate == old(selectedCertificate) && showQuickView == old(showQuickView)
    {
      selectedCouncil := Some(c);
    }

    /**
     * `handleExport`: without a council nothing changes and the error is
     * reported; with one, the pack is reported for that council, the sheet
     * closes and the selection is cleared.
     */
    method HandleExport() returns (outcome: ExportOutcome)
      modifies this
      ensures old(selectedCouncil).None? ==>
                outcome == MissingCouncil && showExportSheet == old(showExportSheet)
      ensures old(selectedCouncil).Some? ==>
                outcome == PackReady(old(selectedCouncil).value) && !showExportSheet
      ensures selectedCouncil == None
      ensures filter == old(filter)
      ensures selectedCertificate == old(selectedCertificate) && showQuickView == old(showQuickView)
    {
      if selectedCouncil.None? {
        return MissingCouncil;
      }
      outcome := PackReady(selectedCouncil.value);
      showExportSheet := false;
      selectedCouncil := None;
    }
  }
}
