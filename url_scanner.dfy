/** The scan orchestrator of the dashboard (src/components/url-scanner.tsx):
    the fixed six-step sequence, the per-step progress array the loop of
    `runRealScan` rewrites after every backend answer, the pure derivation
    of the six-section security report, and `resetScan`.

    The two HTTP calls are not modelled: the phase endpoint is a function
    `backend` from step to outcome (each phase is requested at most once per
    scan, so one answer per step is all a scan can observe) and the report
    endpoint is one `ReportOutcome`. The clock values a report carries (its
    id and timestamp) are parameters. */
module UrlScanner {
  import opened Wrappers
  import opened JsText
  import opened Lists
  import opened Types

  datatype ScanStep = Preengagement | Reconnaissance | Scanning | Vulnerability | Exploitation | Report

  datatype StepStatus = Pending | Running | Completed | Failed

  /** The order in which a scan walks the steps; the last one is the report. */
  const ScanSteps: seq<ScanStep> := [Preengagement, Reconnaissance, Scanning, Vulnerability, Exploitation, Report]

  /** Index of the report step; the loop requests the phases before it. */
  const ReportIndex: nat := 5

  /** What an entry's `results` holds: a phase's results or the report payload. */
  datatype Payload = PhaseData(phase: PhaseResults) | ReportData(report: ReportResponse)

  /** One entry of the progress array (`ScanProgress`); its display
      timestamp is not modelled. `executionTime` is in milliseconds and is
      None where the source computes NaN from a missing duration. */
  datatype ScanProgress = ScanProgress(
    step: ScanStep,
    status: StepStatus,
    message: Option<string>,
    results: Option<Payload>,
    executionTime: Option<int>,
    phaseId: Option<string>)

  /** The JSON answer of the phase endpoint; its duration is in seconds. */
  datatype PhaseResponse = PhaseResponse(
    status: string,
    results: Option<PhaseResults>,
    executionTimeSeconds: Option<int>,
    phaseId: Option<string>)

  /** What awaiting `callPhaseAPI` yields: an answer, or a thrown error whose
      `message` is known when it is an `Error` instance. */
  datatype PhaseOutcome = Responded(response: PhaseResponse) | TransportError(error: Option<string>)

  /** What awaiting `generateReport` yields. */
  datatype ReportOutcome = Generated(report: ReportResponse) | GenerationError(error: Option<string>)

  /** A request sent to the backend. */
  datatype Request = PhaseRequest(step: ScanStep) | ReportRequest

  // ---------------------------------------------------------------------
  // The report (SecurityReportData)

  datatype SectionStatus = Success | Warning | Error

  datatype ReportSection = ReportSection(status: SectionStatus, findings: seq<string>, details: string, duration: int)

  datatype Summary = Summary(vulnerabilities: int, criticalIssues: int, warnings: int, passed: int)

  datatype Details = Details(
    validation: ReportSection,
    reconnaissance: ReportSection,
    enumeration: ReportSection,
    scan: ReportSection,
    vulnerability: ReportSection,
    exploitation: ReportSection)

  datatype ReportStatus = ReportCompleted | ReportFailed

  datatype SecurityReportData = SecurityReportData(
    id: string,
    url: string,
    timestamp: string,
    overallScore: int,
    status: ReportStatus,
    summary: Summary,
    details: Details)

  /** The six sections in the order the report object lists them. */
  function Sections(d: Details): seq<ReportSection> {
    [d.validation, d.reconnaissance, d.enumeration, d.scan, d.vulnerability, d.exploitation]
  }

  // ---------------------------------------------------------------------
  // Deriving the report (convertToSecurityReport)

  /** `j` is the index of the first entry for step `s`. */
  predicate IsFirstWithStep(ps: seq<ScanProgress>, s: ScanStep, j: int) {
    0 <= j < |ps| && ps[j].step == s && forall k :: 0 <= k < j ==> ps[k].step != s
  }

  /** `phaseResults.find((p) => p.step === s)`. */
  function FindStep(ps: seq<ScanProgress>, s: ScanStep): Option<ScanProgress> {
    if |ps| == 0 then None
    else if ps[0].step == s then Some(ps[0])
    else FindStep(ps[1..], s)
  }

  /** `find` answers the first entry for the step, and nothing exactly when
      no entry has it. */
  lemma {:induction false} FindStepIsFirst(ps: seq<ScanProgress>, s: ScanStep)
    ensures FindStep(ps, s).None? <==> forall j :: 0 <= j < |ps| ==> ps[j].step != s
    ensures forall j :: IsFirstWithStep(ps, s, j) ==> FindStep(ps, s) == Some(ps[j])
  {
    if ps != [] && ps[0].step != s {
      FindStepIsFirst(ps[1..], s);
      forall j | IsFirstWithStep(ps, s, j)
        ensures FindStep(ps, s) == Some(ps[j])
      {
        assert IsFirstWithStep(ps[1..], s, j - 1);
      }
      if FindStep(ps, s).Some? {
        var j :| 0 <= j < |ps[1..]| && ps[1..][j].step == s;
        assert ps[j + 1].step == s;
      }
    }
  }

  /** The phase results an entry holds, if it holds any. */
  function ResultsOf(e: Option<ScanProgress>): Option<PhaseResults> {
    if e.Some? && e.value.results.Some? && e.value.results.value.PhaseData? then Some(e.value.results.value.phase)
    else None
  }

  /** `entry?.results?.<count> || 0` for a numeric field. */
  function CountOrZero(n: Option<int>): int {
    n.GetOr(0)
  }

  /** `entry?.results?.message || fallback`: an empty message falls back too. */
  function MessageOr(r: Option<PhaseResults>, fallback: string): (m: string)
    ensures m == fallback || (r.Some? && r.value.message == Some(m) && m != "")
    ensures r.Some? && r.value.message.Some? && r.value.message.value != "" ==> m == r.value.message.value
  {
    if r.Some? && r.value.message.Some? && r.value.message.value != "" then r.value.message.value else fallback
  }

  /** `entry?.executionTime || 0`. */
  function DurationOf(e: Option<ScanProgress>): (d: int)
    ensures e.None? || e.value.executionTime.None? ==> d == 0
    ensures e.Some? && e.value.executionTime.Some? ==> d == e.value.executionTime.value
  {
    if e.Some? && e.value.executionTime.Some? then e.value.executionTime.value else 0
  }

  predicate IsCompleted(e: Option<ScanProgress>) {
    e.Some? && e.value.status == Completed
  }

  function Max(a: int, b: int): int {
    if a >= b then a else b
  }

  /** The overall score of a report: 100 less 25 per critical issue, 5 per
      medium-risk issue and 2 per vulnerability, never below 20. */
  function OverallScore(criticalIssues: int, warnings: int, vulnerabilities: int): (score: int)
    ensures score >= 20
    ensures score == 20 || score == 100 - 25 * criticalIssues - 5 * warnings - 2 * vulnerabilities
    ensures score >= 100 - 25 * criticalIssues - 5 * warnings - 2 * vulnerabilities
    ensures criticalIssues == 0 && warnings == 0 && vulnerabilities == 0 ==> score == 100
    ensures criticalIssues >= 0 && warnings >= 0 && vulnerabilities >= 0 ==> score <= 100
  {
    Max(20, 100 - criticalIssues * 25 - warnings * 5 - vulnerabilities * 2)
  }

  /** More issues of any kind never raise the score. */
  lemma OverallScoreNonIncreasing(c: int, w: int, v: int, c': int, w': int, v': int)
    requires c <= c' && w <= w' && v <= v'
    ensures OverallScore(c', w', v') <= OverallScore(c, w, v)
  {
  }

  /** The services of the open ports, `ports.map(p => p.service).join(", ")`;
      a missing service joins as the empty string. */
  function ServiceList(ports: seq<Port>): string {
    Join(seq(|ports|, i requires 0 <= i < |ports| => ports[i].service.GetOr("")), ", ")
  }

  /** The summary counts, from the vulnerability phase's results (`|| 0`). */
  function SummaryOf(vuln: Option<PhaseResults>): (s: Summary)
    ensures s.passed == 10
    ensures vuln.None? ==> s == Summary(0, 0, 0, 10)
    ensures vuln.Some? ==> s.criticalIssues == CountOrZero(vuln.value.critical)
    ensures vuln.Some? ==> s.warnings == CountOrZero(vuln.value.medium)
    ensures vuln.Some? ==> s.vulnerabilities == CountOrZero(vuln.value.vulnerabilitiesFound)
  {
    if vuln.Some?
    then Summary(CountOrZero(vuln.value.vulnerabilitiesFound), CountOrZero(vuln.value.critical), CountOrZero(vuln.value.medium), 10)
    else Summary(0, 0, 0, 10)
  }

  /** The validation section, from the pre-engagement entry. */
  function ValidationSection(e: Option<ScanProgress>): ReportSection {
    var pre := ResultsOf(e);
    ReportSection(
      if IsCompleted(e) then Success else Error,
      if pre.Some? && pre.value.isAvailable == Some(true)
      then ["Target is reachable", "URL format is valid", "Connection established"]
      else ["Target validation failed"],
      MessageOr(pre, "Target validation completed"),
      DurationOf(e))
  }

  /** The reconnaissance section, from the reconnaissance entry. */
  function ReconnaissanceSection(e: Option<ScanProgress>): ReportSection {
    var recon := ResultsOf(e);
    ReportSection(
      if IsCompleted(e) then Success else Warning,
      ["Subdomains found: " + IntToString(if recon.Some? then CountOrZero(recon.value.subdomainsFound) else 0),
       "DNS records analyzed",
       "WHOIS information gathered"],
      MessageOr(recon, "Information gathering completed"),
      DurationOf(e))
  }

  /** The enumeration section, from the scanning entry. */
  function EnumerationSection(e: Option<ScanProgress>): ReportSection {
    var scan := ResultsOf(e);
    var ports := if scan.Some? && scan.value.portsFound.Some? then scan.value.portsFound.value else [];
    var services := ServiceList(ports);
    ReportSection(
      if IsCompleted(e) then Success else Warning,
      ["Open ports: " + IntToString(|ports|),
       "Services detected: " + (if services == "" then "None" else services)],
      MessageOr(scan, "Service enumeration completed"),
      DurationOf(e))
  }

  /** The scan section, from the vulnerability entry and the summary counts. */
  function ScanSection(e: Option<ScanProgress>, summary: Summary): ReportSection {
    ReportSection(
      if summary.criticalIssues > 0 then Error else Warning,
      ["Vulnerabilities detected: " + IntToString(summary.vulnerabilities),
       "Critical issues: " + IntToString(summary.criticalIssues),
       "Medium-risk issues: " + IntToString(summary.warnings)],
      MessageOr(ResultsOf(e), "Vulnerability scanning completed"),
      DurationOf(e))
  }

  /** The vulnerability section, from the same entry and counts. */
  function VulnerabilitySection(e: Option<ScanProgress>, summary: Summary): ReportSection {
    ReportSection(
      if summary.criticalIssues > 0 then Error else Warning,
      [IntToString(summary.criticalIssues) + " critical vulnerabilities",
       IntToString(summary.warnings) + " medium-risk issues",
       "Risk assessment completed"],
      MessageOr(ResultsOf(e), "Vulnerability assessment completed"),
      DurationOf(e))
  }

  /** The exploitation section, from the exploitation entry; a simulated
      count of 0 reads as none attempted. */
  function ExploitationSection(e: Option<ScanProgress>): ReportSection {
    var exploit := ResultsOf(e);
    var simulated := if exploit.Some? then exploit.value.exploitsSimulated else None;
    ReportSection(
      if IsCompleted(e) then Success else Error,
      if simulated.Some? && simulated.value != 0
      then ["Exploits simulated: " + IntToString(simulated.value),
            "Successful: " + IntToString(CountOrZero(exploit.value.successfulSimulations))]
      else ["No exploitation attempted"],
      MessageOr(exploit, "Exploitation testing completed"),
      DurationOf(e))
  }

  /** `convertToSecurityReport(url, phaseResults)` with the clock values
      `id` and `timestamp` supplied by the caller. */
  function ConvertToSecurityReport(url: string, phaseResults: seq<ScanProgress>, id: string, timestamp: string): (r: SecurityReportData)
    ensures r.url == url && r.id == id && r.timestamp == timestamp
    ensures r.status == ReportCompleted && r.summary.passed == 10
    ensures r.overallScore == OverallScore(r.summary.criticalIssues, r.summary.warnings, r.summary.vulnerabilities)
    ensures r.summary == SummaryOf(ResultsOf(FindStep(phaseResults, Vulnerability)))
    ensures r.details.validation.duration == DurationOf(FindStep(phaseResults, Preengagement))
    ensures r.details.reconnaissance.duration == DurationOf(FindStep(phaseResults, Reconnaissance))
    ensures r.details.enumeration.duration == DurationOf(FindStep(phaseResults, Scanning))
    ensures r.details.scan.duration == DurationOf(FindStep(phaseResults, Vulnerability))
    ensures r.details.vulnerability.duration == DurationOf(FindStep(phaseResults, Vulnerability))
    ensures r.details.exploitation.duration == DurationOf(FindStep(phaseResults, Exploitation))
  {
    var vulnerability := FindStep(phaseResults, Vulnerability);
    var summary := SummaryOf(ResultsOf(vulnerability));
    SecurityReportData(
      id, url, timestamp,
      OverallScore(summary.criticalIssues, summary.warnings, summary.vulnerabilities),
      ReportCompleted, summary,
      Details(
        ValidationSection(FindStep(phaseResults, Preengagement)),
        ReconnaissanceSection(FindStep(phaseResults, Reconnaissance)),
        EnumerationSection(FindStep(phaseResults, Scanning)),
        ScanSection(vulnerability, summary),
        VulnerabilitySection(vulnerability, summary),
        ExploitationSection(FindStep(phaseResults, Exploitation))))
  }

  /** Step `s` counts as completed for the report: the first entry for it
      exists and is completed. */
  ghost predicate StepCompletedIn(ps: seq<ScanProgress>, s: ScanStep) {
    exists j :: IsFirstWithStep(ps, s, j) && ps[j].status == Completed
  }

  /** The status rule of each section: validation and exploitation are
      `success` exactly when their phase completed and `error` otherwise;
      reconnaissance and enumeration are `success` or `warning` the same
      way; scan and vulnerability are `error` exactly when the summary
      counts a critical issue and `warning` otherwise. */
  lemma SectionStatusRules(url: string, ps: seq<ScanProgress>, id: string, timestamp: string)
    ensures var r := ConvertToSecurityReport(url, ps, id, timestamp);
      var d := r.details;
      && (d.scan.status == Error <==> r.summary.criticalIssues > 0)
      && (d.scan.status == Warning <==> r.summary.criticalIssues <= 0)
      && d.vulnerability.status == d.scan.status
      && (d.validation.status == Success <==> StepCompletedIn(ps, Preengagement))
      && (d.validation.status == Error <==> !StepCompletedIn(ps, Preengagement))
      && (d.reconnaissance.status == Success <==> StepCompletedIn(ps, Reconnaissance))
      && (d.reconnaissance.status == Warning <==> !StepCompletedIn(ps, Reconnaissance))
      && (d.enumeration.status == Success <==> StepCompletedIn(ps, Scanning))
      && (d.enumeration.status == Warning <==> !StepCompletedIn(ps, Scanning))
      && (d.exploitation.status == Success <==> StepCompletedIn(ps, Exploitation))
      && (d.exploitation.status == Error <==> !StepCompletedIn(ps, Exploitation))
  {
    forall s | s in ScanSteps ensures IsCompleted(FindStep(ps, s)) <==> StepCompletedIn(ps, s) {
      FindStepIsFirst(ps, s);
      assert forall i, j :: IsFirstWithStep(ps, s, i) && IsFirstWithStep(ps, s, j) ==> i == j;
      if FindStep(ps, s).Some? {
        var j := FirstIndex(ps, s);
      }
    }
  }

  /** The first entry for a step that some entry has. */
  function FirstIndex(ps: seq<ScanProgress>, s: ScanStep): (j: nat)
    requires exists i :: 0 <= i < |ps| && ps[i].step == s
    ensures IsFirstWithStep(ps, s, j)
  {
    if ps[0].step == s then 0
    else
      assert exists i :: 0 <= i < |ps[1..]| && ps[1..][i].step == s by {
        var i :| 0 <= i < |ps| && ps[i].step == s;
        assert ps[1..][i - 1].step == s;
      }
      1 + FirstIndex(ps[1..], s)
  }

  /** With no entry for a step, every section takes its default: the
      default details, zero duration, a perfect score. */
  lemma {:induction false} EmptyProgressGivesDefaults(url: string, id: string, timestamp: string)
    ensures var r := ConvertToSecurityReport(url, [], id, timestamp);
      && r.overallScore == 100
      && r.summary == Summary(0, 0, 0, 10)
      && r.details.validation == ReportSection(Error, ["Target validation failed"], "Target validation completed", 0)
      && r.details.reconnaissance.status == Warning
      && r.details.enumeration.status == Warning
      && r.details.scan.status == Warning
      && r.details.vulnerability.status == Warning
      && r.details.exploitation == ReportSection(Error, ["No exploitation attempted"], "Exploitation testing completed", 0)
      && forall k :: 0 <= k < 6 ==> Sections(r.details)[k].duration == 0
  {
  }

  // ---------------------------------------------------------------------
  // The progress array and its updates

  /** The array a scan starts from: one entry per step, in order, the first
      running and every other pending. */
  function InitialProgress(): (p: seq<ScanProgress>)
    ensures |p| == |ScanSteps|
    ensures forall j :: 0 <= j < |p| ==> p[j].step == ScanSteps[j] && p[j].results.None? && p[j].message.None?
    ensures forall j :: 0 <= j < |p| ==> p[j].status == (if j == 0 then Running else Pending)
  {
    seq(|ScanSteps|, j requires 0 <= j < |ScanSteps| =>
      ScanProgress(ScanSteps[j], if j == 0 then Running else Pending, None, None, None, None))
  }

  /** The message shown for a thrown value that is not an `Error`. */
  const UnknownErrorText: string := "Unknown error occurred"
  /** The message shown when report generation throws something else. */
  const ReportFailedText: string := "Report generation failed"

  /** The status a phase answer gives its entry. */
  function StatusOf(r: PhaseResponse): StepStatus {
    if r.status == "completed" then Completed else Failed
  }

  /** Entry `e` after its phase answered `r`; a message is kept only when the
      answer says "failed". */
  function AnsweredEntry(e: ScanProgress, r: PhaseResponse): ScanProgress {
    e.(status := StatusOf(r),
       results := if r.results.Some? then Some(PhaseData(r.results.value)) else None,
       executionTime := if r.executionTimeSeconds.Some? then Some(r.executionTimeSeconds.value * 1000) else None,
       phaseId := r.phaseId,
       message := if r.status == "failed" && r.results.Some? then r.results.value.message else None)
  }

  /** The message of a thrown error, or the fallback text when it is not an `Error`. */
  function ErrorMessage(error: Option<string>, fallback: string): string {
    error.GetOr(fallback)
  }

  /** The array after phase `i` answered: entry `i` is rewritten, entry
      `i + 1` becomes running, and nothing else changes. */
  function ApplyResponse(p: seq<ScanProgress>, i: nat, r: PhaseResponse): seq<ScanProgress> {
    if i + 1 < |p| then p[i := AnsweredEntry(p[i], r)][i + 1 := p[i + 1].(status := Running)]
    else if i < |p| then p[i := AnsweredEntry(p[i], r)]
    else p
  }

  /** The array after the request for phase `i` threw: only entry `i` changes. */
  function ApplyTransportError(p: seq<ScanProgress>, i: nat, error: Option<string>): seq<ScanProgress> {
    if i < |p| then p[i := p[i].(status := Failed, message := Some(ErrorMessage(error, UnknownErrorText)))]
    else p
  }

  function ApplyOutcome(p: seq<ScanProgress>, i: nat, o: PhaseOutcome): seq<ScanProgress> {
    match o
    case Responded(r) => ApplyResponse(p, i, r)
    case TransportError(e) => ApplyTransportError(p, i, e)
  }

  /** The outcomes after which the loop returns: a thrown error, or an answer
      whose status is "failed" or "error". Any other status continues. */
  predicate Halts(o: PhaseOutcome) {
    o.TransportError? || o.response.status == "failed" || o.response.status == "error"
  }

  /** The first phase index at or after `from` whose outcome halts the loop,
      or ReportIndex when none does. */
  function FirstHalt(backend: ScanStep -> PhaseOutcome, from: nat): (h: nat)
    requires from <= ReportIndex
    ensures from <= h <= ReportIndex
    ensures forall j :: from <= j < h ==> !Halts(backend(ScanSteps[j]))
    ensures h < ReportIndex ==> Halts(backend(ScanSteps[h]))
    decreases ReportIndex - from
  {
    if from == ReportIndex then ReportIndex
    else if Halts(backend(ScanSteps[from])) then from
    else FirstHalt(backend, from + 1)
  }

  /** The index of the phase at which a scan stops, ReportIndex if none stops it. */
  function HaltIndex(backend: ScanStep -> PhaseOutcome): nat {
    FirstHalt(backend, 0)
  }

  /** Where the loop stands at phase `i`, when no earlier phase halted: it
      stops there exactly when phase `i` halts. */
  lemma HaltIndexAt(backend: ScanStep -> PhaseOutcome, i: nat)
    requires i < ReportIndex && i <= HaltIndex(backend)
    ensures Halts(backend(ScanSteps[i])) <==> HaltIndex(backend) == i
    ensures !Halts(backend(ScanSteps[i])) ==> i + 1 <= HaltIndex(backend)
  {
  }

  /** The array after the first `k` phases were answered. */
  function ProgressAfter(backend: ScanStep -> PhaseOutcome, k: nat): (p: seq<ScanProgress>)
    requires k <= ReportIndex
    ensures |p| == |ScanSteps|
  {
    if k == 0 then InitialProgress()
    else ApplyOutcome(ProgressAfter(backend, k - 1), k - 1, backend(ScanSteps[k - 1]))
  }

  /** The report entry set running before the report is requested. */
  function MarkReportRunning(p: seq<ScanProgress>): seq<ScanProgress> {
    if ReportIndex < |p| then p[ReportIndex := p[ReportIndex].(status := Running)] else p
  }

  /** The report entry once the report request settled. */
  function ApplyReportOutcome(p: seq<ScanProgress>, o: ReportOutcome): seq<ScanProgress> {
    if ReportIndex < |p| then
      p[ReportIndex := match o
        case Generated(rep) => p[ReportIndex].(status := Completed, results := Some(ReportData(rep)))
        case GenerationError(e) => p[ReportIndex].(status := Failed, message := Some(ErrorMessage(e, ReportFailedText)))]
    else p
  }

  /** The array a scan leaves when no phase halted: every phase answered,
      then the report entry set running and settled with the report outcome. */
  function FinalProgress(backend: ScanStep -> PhaseOutcome, reportOutcome: ReportOutcome): seq<ScanProgress> {
    ApplyReportOutcome(MarkReportRunning(ProgressAfter(backend, HaltIndex(backend))), reportOutcome)
  }

  // ---------------------------------------------------------------------
  // The whole scan, as a function of the backend's answers

  /** The state of the scanner component that a scan reads and writes. */
  datatype ScannerState = ScannerState(
    isScanning: bool,
    scanProgress: seq<ScanProgress>,
    currentStep: int,
    securityReport: Option<SecurityReportData>,
    showReport: bool)

  /** The state after `resetScan`, which is also the state on mount. */
  const Cleared := ScannerState(false, [], -1, None, false)

  /** The state `runRealScan` leaves behind, given the state it started
      from, the backend's answers, and the report it would derive should
      generation succeed. A url whose `trim()` is empty is exactly a blank
      one (JsText.TrimIsEmptyIffBlank). */
  function ScanRun(url: string, before: ScannerState, backend: ScanStep -> PhaseOutcome,
                   reportOutcome: ReportOutcome, report: SecurityReportData): ScannerState
  {
    if IsBlank(url) then before
    else
      var h := HaltIndex(backend);
      if h < ReportIndex then ScannerState(false, ProgressAfter(backend, h + 1), h, None, false)
      else
        var p := FinalProgress(backend, reportOutcome);
        if reportOutcome.Generated?
        then ScannerState(false, p, -1, Some(report), true)
        else ScannerState(false, p, -1, None, false)
  }

  /** The first `n` phase requests, in step order. */
  function PhaseRequests(n: nat): seq<Request>
    requires n <= ReportIndex
  {
    if n == 0 then [] else PhaseRequests(n - 1) + [PhaseRequest(ScanSteps[n - 1])]
  }

  /** The requests of a scan that stopped at phase `h` (ReportIndex: none stopped it). */
  function RequestsUntil(h: nat): seq<Request>
    requires h <= ReportIndex
  {
    if h < ReportIndex then PhaseRequests(h + 1) else PhaseRequests(h) + [ReportRequest]
  }

  /** Regrouping a concatenation; stated on its own, it keeps the solver
      from searching for it inside the scan method. */
  lemma AppendIsAssociative<T>(a: seq<T>, b: seq<T>, c: seq<T>)
    ensures (a + b) + c == a + (b + c)
  {
  }

  /** The requests one scan sends to the backend. */
  function ScanRequests(url: string, backend: ScanStep -> PhaseOutcome): seq<Request> {
    if IsBlank(url) then [] else RequestsUntil(HaltIndex(backend))
  }

  // ---------------------------------------------------------------------
  // What a scan promises

  /** A blank or whitespace-only url changes nothing and sends nothing. */
  lemma BlankUrlIsNoOp(url: string, before: ScannerState, backend: ScanStep -> PhaseOutcome,
                       reportOutcome: ReportOutcome, report: SecurityReportData)
    requires IsBlank(url)
    ensures ScanRun(url, before, backend, reportOutcome, report) == before
    ensures ScanRequests(url, backend) == []
  {
  }

  /** Phases are requested one at a time in step order, up to and including
      the one that halts; "report" never goes to the phase endpoint; the
      report request is sent, last, exactly when no phase halted. */
  lemma RequestOrder(url: string, backend: ScanStep -> PhaseOutcome)
    requires !IsBlank(url)
    ensures var rs := ScanRequests(url, backend);
      && |rs| == HaltIndex(backend) + 1
      && (forall j :: 0 <= j < |rs| && j < ReportIndex ==> rs[j] == PhaseRequest(ScanSteps[j]))
      && PhaseRequest(Report) !in rs
      && (ReportRequest in rs <==> HaltIndex(backend) == ReportIndex)
      && (ReportRequest in rs ==> rs[|rs| - 1] == ReportRequest)
  {
    var h := HaltIndex(backend);
    var n := if h < ReportIndex then h + 1 else ReportIndex;
    PhaseRequestsShape(n);
  }

  /** The first `n` phase requests name the first `n` steps, so neither the
      report step nor the report request is among them. */
  lemma {:induction false} PhaseRequestsShape(n: nat)
    requires n <= ReportIndex
    ensures |PhaseRequests(n)| == n
    ensures forall j :: 0 <= j < n ==> PhaseRequests(n)[j] == PhaseRequest(ScanSteps[j])
    ensures PhaseRequest(Report) !in PhaseRequests(n) && ReportRequest !in PhaseRequests(n)
  {
    if n > 0 {
      PhaseRequestsShape(n - 1);
      assert ScanSteps[n - 1] != Report;
    }
  }

  /** While no phase has halted the loop, the array after `k` answers holds
      the answered phases' statuses below `k`, a running entry at `k`, and
      pending entries after it. */
  lemma {:induction false} ProgressAfterShape(backend: ScanStep -> PhaseOutcome, k: nat)
    requires k <= ReportIndex
    requires forall j :: 0 <= j < k ==> !Halts(backend(ScanSteps[j]))
    ensures var p := ProgressAfter(backend, k);
      && (forall j :: 0 <= j < |p| ==> p[j].step == ScanSteps[j])
      && (forall j :: 0 <= j < k ==>
            backend(ScanSteps[j]).Responded?
            && p[j] == AnsweredEntry(InitialProgress()[j].(status := Running), backend(ScanSteps[j]).response))
      && p[k].status == Running
      && (forall j :: k < j < |p| ==> p[j] == InitialProgress()[j])
  {
    if k > 0 {
      ProgressAfterShape(backend, k - 1);
    }
  }

  /** A phase answer with a status other than "completed", "failed" or
      "error" marks its entry failed yet the loop goes on to the next phase. */
  lemma OtherStatusFailsWithoutHalting(backend: ScanStep -> PhaseOutcome, i: nat)
    requires i < ReportIndex
    requires forall j :: 0 <= j < i ==> !Halts(backend(ScanSteps[j]))
    requires backend(ScanSteps[i]).Responded?
    requires backend(ScanSteps[i]).response.status !in {"completed", "failed", "error"}
    ensures HaltIndex(backend) > i
    ensures ProgressAfter(backend, i + 1)[i].status == Failed
    ensures ProgressAfter(backend, i + 1)[i + 1].status == Running
  {
    ProgressAfterShape(backend, i + 1);
  }

  /** A scan halted by a "failed" or "error" answer at phase `h`: entry `h`
      is failed, entry `h + 1` is left running, later entries stay pending,
      the earlier ones hold their answers, and no report is produced. */
  lemma HaltOnFailedAnswer(url: string, before: ScannerState, backend: ScanStep -> PhaseOutcome,
                           reportOutcome: ReportOutcome, report: SecurityReportData)
    requires !IsBlank(url)
    requires HaltIndex(backend) < ReportIndex
    requires backend(ScanSteps[HaltIndex(backend)]).Responded?
    ensures var h := HaltIndex(backend);
      var after := ScanRun(url, before, backend, reportOutcome, report);
      var answer := backend(ScanSteps[h]).response;
      && answer.status in {"failed", "error"}
      && !after.isScanning && after.currentStep == h
      && after.securityReport.None? && !after.showReport
      && |after.scanProgress| == |ScanSteps|
      && after.scanProgress[h].status == Failed
      && after.scanProgress[h].message == (if answer.status == "failed" && answer.results.Some? then answer.results.value.message else None)
      && after.scanProgress[h + 1].status == Running
      && (forall j :: h + 1 < j < |ScanSteps| ==> after.scanProgress[j].status == Pending)
      && (forall j :: 0 <= j < h ==> after.scanProgress[j].status == StatusOf(backend(ScanSteps[j]).response))
  {
    var h := HaltIndex(backend);
    ProgressAfterShape(backend, h);
  }

  /** A scan halted by a thrown error at phase `h`: only entry `h` changes,
      to failed with the error's message, so entry `h + 1` stays pending. */
  lemma HaltOnTransportError(url: string, before: ScannerState, backend: ScanStep -> PhaseOutcome,
                             reportOutcome: ReportOutcome, report: SecurityReportData)
    requires !IsBlank(url)
    requires HaltIndex(backend) < ReportIndex
    requires backend(ScanSteps[HaltIndex(backend)]).TransportError?
    ensures var h := HaltIndex(backend);
      var after := ScanRun(url, before, backend, reportOutcome, report);
      var error := backend(ScanSteps[h]).error;
      && !after.isScanning && after.currentStep == h
      && after.securityReport.None? && !after.showReport
      && |after.scanProgress| == |ScanSteps|
      && after.scanProgress[h].status == Failed
      && after.scanProgress[h].message == Some(ErrorMessage(error, UnknownErrorText))
      && (forall j :: 0 <= j < |ScanSteps| && j != h ==> after.scanProgress[j] == ProgressAfter(backend, h)[j])
      && (forall j :: h < j < |ScanSteps| ==> after.scanProgress[j].status == Pending)
  {
    var h := HaltIndex(backend);
    ProgressAfterShape(backend, h);
  }

  /** A scan no phase halted: the phase entries hold their answers, the
      report entry is completed with the payload or failed with a message,
      and a report is set and shown exactly when generation succeeded.
      Either way the scan ends idle with current step -1. */
  lemma FullScan(url: string, before: ScannerState, backend: ScanStep -> PhaseOutcome,
                 reportOutcome: ReportOutcome, report: SecurityReportData)
    requires !IsBlank(url)
    requires HaltIndex(backend) == ReportIndex
    ensures var after := ScanRun(url, before, backend, reportOutcome, report);
      && !after.isScanning && after.currentStep == -1
      && |after.scanProgress| == |ScanSteps|
      && (forall j :: 0 <= j < |ScanSteps| ==> after.scanProgress[j].step == ScanSteps[j])
      && (forall j :: 0 <= j < ReportIndex ==> after.scanProgress[j].status == StatusOf(backend(ScanSteps[j]).response))
      && (after.scanProgress[ReportIndex].status == Completed <==> reportOutcome.Generated?)
      && (after.scanProgress[ReportIndex].status == Failed <==> reportOutcome.GenerationError?)
      && (reportOutcome.Generated? ==> after.scanProgress[ReportIndex].results == Some(ReportData(reportOutcome.report)))
      && (reportOutcome.GenerationError? ==>
            after.scanProgress[ReportIndex].message == Some(ErrorMessage(reportOutcome.error, ReportFailedText)))
      && (after.securityReport.Some? <==> reportOutcome.Generated?)
      && after.showReport == after.securityReport.Some?
  {
    ProgressAfterShape(backend, ReportIndex);
  }

  /** For every scan of a non-blank url: it ends idle, and a report is set
      and shown only when no phase halted and generation succeeded. */
  lemma ReportOnlyAfterFullSuccess(url: string, before: ScannerState, backend: ScanStep -> PhaseOutcome,
                                   reportOutcome: ReportOutcome, report: SecurityReportData)
    requires !IsBlank(url)
    ensures var after := ScanRun(url, before, backend, reportOutcome, report);
      && !after.isScanning
      && (after.securityReport.Some? <==> HaltIndex(backend) == ReportIndex && reportOutcome.Generated?)
      && after.showReport == after.securityReport.Some?
      && (after.currentStep == -1 <==> HaltIndex(backend) == ReportIndex)
  {
  }

  /** A phase answer with status `status` and no results. */
  function Answer(status: string): PhaseOutcome {
    Responded(PhaseResponse(status, None, None, None))
  }

  /** A backend that completes every phase except reconnaissance, to which
      it answers "failed". */
  function ReconnaissanceFails(s: ScanStep): PhaseOutcome {
    if s == Reconnaissance then Answer("failed") else Answer("completed")
  }

  /** With that backend the scan stops after two requests with
      pre-engagement completed, reconnaissance failed, scanning left running
      by the loop's rewrite of the next entry, the rest pending, and no
      report. */
  lemma ReconnaissanceFailureScenario(url: string, before: ScannerState, reportOutcome: ReportOutcome, report: SecurityReportData)
    requires !IsBlank(url)
    ensures var after := ScanRun(url, before, ReconnaissanceFails, reportOutcome, report);
      && |after.scanProgress| == |ScanSteps|
      && after.scanProgress[0].status == Completed
      && after.scanProgress[1].status == Failed
      && after.scanProgress[2].status == Running
      && after.scanProgress[3].status == Pending
      && after.scanProgress[4].status == Pending
      && after.scanProgress[5].status == Pending
      && after.securityReport.None?
      && ScanRequests(url, ReconnaissanceFails) == [PhaseRequest(Preengagement), PhaseRequest(Reconnaissance)]
  {
    assert !Halts(ReconnaissanceFails(ScanSteps[0])) && Halts(ReconnaissanceFails(ScanSteps[1]));
    assert HaltIndex(ReconnaissanceFails) == 1;
    HaltOnFailedAnswer(url, before, ReconnaissanceFails, reportOutcome, report);
    assert RequestsUntil(1) == [PhaseRequest(Preengagement), PhaseRequest(Reconnaissance)];
  }

  /** A backend that completes every phase, with `vulns` as the results of
      the vulnerability phase. */
  function AllCompleted(vulns: PhaseResults): ScanStep -> PhaseOutcome {
    (s: ScanStep) => Responded(PhaseResponse("completed", if s == Vulnerability then Some(vulns) else None, None, None))
  }

  /** As written, the report is derived from the array the scan started
      from, not the one it produced: on a first scan, or one after a reset,
      that array is empty, so a scan whose every phase completed and whose
      vulnerability phase found critical issues still yields a failed
      validation section and a perfect score. */
  lemma FirstScanReportIgnoresPhases(url: string, before: ScannerState, vulns: PhaseResults,
                                     generated: ReportResponse, reportId: string, now: string)
    requires !IsBlank(url)
    requires before.scanProgress == []
    requires vulns.critical == Some(3)
    ensures var report := ConvertToSecurityReport(url, before.scanProgress, reportId, now);
      var after := ScanRun(url, before, AllCompleted(vulns), Generated(generated), report);
      && |after.scanProgress| == |ScanSteps|
      && (forall j :: 0 <= j < ReportIndex ==> after.scanProgress[j].status == Completed)
      && after.scanProgress[3].results == Some(PhaseData(vulns))
      && after.securityReport == Some(report)
      && report.details.validation.status == Error
      && report.overallScore == 100
  {
    AllCompletedScan(url, before, vulns, generated, ConvertToSecurityReport(url, before.scanProgress, reportId, now));
    EmptyProgressGivesDefaults(url, reportId, now);
  }

  /** A scan whose phases all complete, with the given vulnerability
      results, stores whatever report it derived and ends with every phase
      entry completed. */
  lemma AllCompletedScan(url: string, before: ScannerState, vulns: PhaseResults,
                         generated: ReportResponse, report: SecurityReportData)
    requires !IsBlank(url)
    ensures var after := ScanRun(url, before, AllCompleted(vulns), Generated(generated), report);
      && |after.scanProgress| == |ScanSteps|
      && (forall j :: 0 <= j < ReportIndex ==> after.scanProgress[j].status == Completed)
      && after.scanProgress[3].results == Some(PhaseData(vulns))
      && after.securityReport == Some(report)
  {
    var backend := AllCompleted(vulns);
    assert forall j :: 0 <= j < ReportIndex ==> !Halts(backend(ScanSteps[j]));
    ProgressAfterShape(backend, ReportIndex);
    FullScan(url, before, backend, Generated(generated), report);
  }

  /** The evidently intended derivation reads the array the scan produced.
      When every phase answered "completed", that array has each phase's
      entry completed and in step order, so the report the corrected scan
      stores and shows has successful validation, reconnaissance,
      enumeration and exploitation sections, and summary counts that are
      the vulnerability phase's own. */
  lemma ReportFromFinalProgress(url: string, before: ScannerState, backend: ScanStep -> PhaseOutcome,
                                generated: ReportResponse, reportId: string, now: string)
    requires !IsBlank(url)
    requires forall s :: s != Report ==> backend(s).Responded? && backend(s).response.status == "completed"
    ensures var r := ConvertToSecurityReport(url, FinalProgress(backend, Generated(generated)), reportId, now);
      var after := ScanRun(url, before, backend, Generated(generated), r);
      && after.securityReport == Some(r) && after.showReport
      && r.details.validation.status == Success
      && r.details.reconnaissance.status == Success
      && r.details.enumeration.status == Success
      && r.details.exploitation.status == Success
      && r.summary == SummaryOf(backend(Vulnerability).response.results)
  {
    CompletedScanProgress(backend, generated);
    var final := FinalProgress(backend, Generated(generated));
    CompletedPhasesReport(url, final, reportId, now);
  }

  /** The array a scan leaves when every phase answered "completed". */
  lemma CompletedScanProgress(backend: ScanStep -> PhaseOutcome, generated: ReportResponse)
    requires forall s :: s != Report ==> backend(s).Responded? && backend(s).response.status == "completed"
    ensures HaltIndex(backend) == ReportIndex
    ensures var final := FinalProgress(backend, Generated(generated));
      && |final| == |ScanSteps|
      && (forall j :: 0 <= j < |final| ==> final[j].step == ScanSteps[j])
      && (forall j :: 0 <= j < ReportIndex ==> final[j].status == Completed)
      && ResultsOf(Some(final[3])) == backend(Vulnerability).response.results
  {
    forall j | 0 <= j < ReportIndex ensures !Halts(backend(ScanSteps[j])) {
      assert ScanSteps[j] != Report;
    }
    var h := HaltIndex(backend);
    assert h == ReportIndex;
    var p := ProgressAfter(backend, h);
    ProgressAfterShape(backend, h);
    var final := FinalProgress(backend, Generated(generated));
    forall j | 0 <= j < ReportIndex ensures final[j].status == Completed {
      assert ScanSteps[j] != Report;
      assert final[j] == p[j];
    }
    assert p[3] == AnsweredEntry(InitialProgress()[3].(status := Running), backend(Vulnerability).response);
  }

  /** The report derived from an array whose phase entries are in step
      order and completed. */
  lemma CompletedPhasesReport(url: string, ps: seq<ScanProgress>, reportId: string, now: string)
    requires |ps| == |ScanSteps|
    requires forall j :: 0 <= j < |ps| ==> ps[j].step == ScanSteps[j]
    requires forall j :: 0 <= j < ReportIndex ==> ps[j].status == Completed
    ensures var r := ConvertToSecurityReport(url, ps, reportId, now);
      && r.details.validation.status == Success
      && r.details.reconnaissance.status == Success
      && r.details.enumeration.status == Success
      && r.details.exploitation.status == Success
      && r.summary == SummaryOf(ResultsOf(Some(ps[3])))
  {
    CompletedStepsAreFound(ps);
    assert StepCompletedIn(ps, ScanSteps[0]) && StepCompletedIn(ps, ScanSteps[1]);
    assert StepCompletedIn(ps, ScanSteps[2]) && StepCompletedIn(ps, ScanSteps[4]);
    assert IsFirstWithStep(ps, ScanSteps[3], 3);
    SectionStatusRules(url, ps, reportId, now);
    FindStepIsFirst(ps, Vulnerability);
  }

  /** In an array laid out in step order, each phase's entry is the first for its step. */
  lemma CompletedStepsAreFound(p: seq<ScanProgress>)
    requires |p| == |ScanSteps|
    requires forall j :: 0 <= j < |p| ==> p[j].step == ScanSteps[j]
    requires forall j :: 0 <= j < ReportIndex ==> p[j].status == Completed
    ensures forall j :: 0 <= j < ReportIndex ==> IsFirstWithStep(p, ScanSteps[j], j) && StepCompletedIn(p, ScanSteps[j])
  {
  }

  // ---------------------------------------------------------------------
  // Display rules

  datatype BadgeVariant = DefaultBadge | SecondaryBadge | DestructiveBadge | OutlineBadge

  datatype StepIcon = Spinner | CheckCircle | XCircle | Clock

  /** `getStepBadgeVariant`. */
  function StepBadgeVariant(status: StepStatus): BadgeVariant {
    match status
    case Running => DefaultBadge
    case Completed => SecondaryBadge
    case Failed => DestructiveBadge
    case Pending => OutlineBadge
  }

  /** `getStepIcon`. */
  function GetStepIcon(status: StepStatus): StepIcon {
    match status
    case Running => Spinner
    case Completed => CheckCircle
    case Failed => XCircle
    case Pending => Clock
  }

  /** Badge and icon each tell every status apart. */
  lemma StepDisplayIsInjective(a: StepStatus, b: StepStatus)
    ensures StepBadgeVariant(a) == StepBadgeVariant(b) <==> a == b
    ensures GetStepIcon(a) == GetStepIcon(b) <==> a == b
  {
  }

  /** What the scan button does when clicked. */
  datatype ButtonAction = Disabled | StartsScan | ResetsScan

  /** The button is disabled when the url is blank and no scan runs; it
      resets a running scan and starts one otherwise. */
  function ScanButtonAction(url: string, isScanning: bool): (a: ButtonAction)
    ensures a == Disabled <==> IsBlank(url) && !isScanning
    ensures a == ResetsScan <==> isScanning
    ensures a == StartsScan <==> !IsBlank(url) && !isScanning
  {
    TrimIsEmptyIffBlank(url);
    if Trim(url) == "" && !isScanning then Disabled
    else if isScanning then ResetsScan
    else StartsScan
  }

  /** The entries that get a phase result card while no report is shown:
      the completed ones holding results, except the report entry. */
  function PhaseCards(p: seq<ScanProgress>): (cards: seq<ScanProgress>)
    ensures |cards| <= |p|
  {
    if p == [] then []
    else if p[0].status == Completed && p[0].results.Some? && p[0].step != Report
    then [p[0]] + PhaseCards(p[1..])
    else PhaseCards(p[1..])
  }

  /** An entry gets a card exactly when it is completed, holds results and
      is not the report entry. */
  lemma {:induction false} PhaseCardsMembership(p: seq<ScanProgress>)
    ensures forall e :: e in PhaseCards(p) <==> e in p && e.status == Completed && e.results.Some? && e.step != Report
  {
    if p != [] {
      PhaseCardsMembership(p[1..]);
      assert forall e :: e in p <==> e == p[0] || e in p[1..];
    }
  }

  /** Every position, one further on. */
  function Shifted(xs: seq<nat>): (ys: seq<nat>)
    ensures |ys| == |xs| && forall k :: 0 <= k < |xs| ==> ys[k] == xs[k] + 1
  {
    seq(|xs|, k requires 0 <= k < |xs| => xs[k] + 1)
  }

  /** The positions in `p` of the entries that get a card. */
  function CardPositions(p: seq<ScanProgress>): seq<nat> {
    if p == [] then []
    else if p[0].status == Completed && p[0].results.Some? && p[0].step != Report
    then [0] + Shifted(CardPositions(p[1..]))
    else Shifted(CardPositions(p[1..]))
  }

  /** Card positions lie inside the array and strictly increase. */
  lemma {:induction false} CardPositionsIncrease(p: seq<ScanProgress>)
    ensures forall k :: 0 <= k < |CardPositions(p)| ==> CardPositions(p)[k] < |p|
    ensures forall k, l :: 0 <= k < l < |CardPositions(p)| ==> CardPositions(p)[k] < CardPositions(p)[l]
  {
    if p != [] {
      CardPositionsIncrease(p[1..]);
      var rest := CardPositions(p[1..]);
      var idx := CardPositions(p);
      if p[0].status == Completed && p[0].results.Some? && p[0].step != Report {
        assert idx == [0] + Shifted(rest);
        forall k | 0 <= k < |idx| ensures idx[k] < |p| {
          if k > 0 {
            assert idx[k] == rest[k - 1] + 1;
          }
        }
        forall k, l | 0 <= k < l < |idx| ensures idx[k] < idx[l] {
          assert idx[l] == rest[l - 1] + 1;
          if k > 0 {
            assert idx[k] == rest[k - 1] + 1;
          }
        }
      } else {
        assert idx == Shifted(rest);
      }
    }
  }

  /** The cards keep the order of the array, as `filter` does: the k-th
      card is the entry at the k-th card position, and the positions
      strictly increase. */
  lemma {:induction false} PhaseCardsKeepOrder(p: seq<ScanProgress>)
    ensures |CardPositions(p)| == |PhaseCards(p)|
    ensures forall k :: 0 <= k < |CardPositions(p)| ==> CardPositions(p)[k] < |p| && PhaseCards(p)[k] == p[CardPositions(p)[k]]
    ensures forall k, l :: 0 <= k < l < |CardPositions(p)| ==> CardPositions(p)[k] < CardPositions(p)[l]
  {
    CardPositionsIncrease(p);
    if p != [] {
      PhaseCardsKeepOrder(p[1..]);
      var rest := CardPositions(p[1..]);
      var restCards := PhaseCards(p[1..]);
      var idx := CardPositions(p);
      var cards := PhaseCards(p);
      if p[0].status == Completed && p[0].results.Some? && p[0].step != Report {
        assert idx == [0] + Shifted(rest);
        assert cards == [p[0]] + restCards;
        forall k | 0 < k < |idx| ensures idx[k] == rest[k - 1] + 1 && cards[k] == p[idx[k]] {
          assert cards[k] == restCards[k - 1];
          assert p[idx[k]] == p[1..][rest[k - 1]];
        }
      } else {
        assert idx == Shifted(rest);
        assert cards == restCards;
        forall k | 0 <= k < |idx| ensures idx[k] == rest[k] + 1 && cards[k] == p[idx[k]] {
          assert p[idx[k]] == p[1..][rest[k]];
        }
      }
    }
  }

  // ---------------------------------------------------------------------
  // The component

  /** The scanner component's state; its methods are the event handlers. */
  class Scanner {
    var url: string
    var isScanning: bool
    var scanProgress: seq<ScanProgress>
    var currentStep: int
    var securityReport: Option<SecurityReportData>
    var showReport: bool
    /** Every request sent to the backend, oldest first. */
    ghost var requests: seq<Request>

    function State(): ScannerState
      reads this
    {
      ScannerState(isScanning, scanProgress, currentStep, securityReport, showReport)
    }

    /** The component on mount. */
    constructor ()
      ensures url == "" && State() == Cleared && requests == []
    {
      url := "";
      isScanning := false;
      scanProgress := [];
      currentStep := -1;
      securityReport := None;
      showReport := false;
      requests := [];
    }

    /** Typing in the url field, which is disabled while a scan runs. */
    method EditUrl(text: string)
      modifies this`url
      ensures url == if isScanning then old(url) else text
    {
      if !isScanning {
        url := text;
      }
    }

    /** `runRealScan`. The report it shows is derived from the array the
        component held when the scan began (the handler's captured
        `scanProgress`), so deriving it up front gives the same value. */
    method RunRealScan(backend: ScanStep -> PhaseOutcome, reportOutcome: ReportOutcome, reportId: string, now: string)
      modifies this
      ensures State() == ScanRun(url, old(State()), backend, reportOutcome,
                                 ConvertToSecurityReport(url, old(scanProgress), reportId, now))
      ensures requests == old(requests) + ScanRequests(url, backend)
      ensures url == old(url)
    {
      var report := ConvertToSecurityReport(url, scanProgress, reportId, now);
      ScanDerivingReport(backend, reportOutcome, _ => report);
    }

    /** `runRealScan` as evidently intended: the report it shows is derived
        from the array the scan produced, once the report entry settled. */
    method RunScanReportingFinalProgress(backend: ScanStep -> PhaseOutcome, reportOutcome: ReportOutcome,
                                         reportId: string, now: string)
      modifies this
      ensures State() == ScanRun(url, old(State()), backend, reportOutcome,
                                 ConvertToSecurityReport(url, FinalProgress(backend, reportOutcome), reportId, now))
      ensures requests == old(requests) + ScanRequests(url, backend)
      ensures url == old(url)
    {
      var target := url;
      ScanDerivingReport(backend, reportOutcome, ps => ConvertToSecurityReport(target, ps, reportId, now));
    }

    /** The body of `runRealScan`, with the derivation of the report from
        the final array given as `derive`: walks the phases in order,
        rewriting the progress array after every answer, stops at the first
        halting outcome, and otherwise requests the report. */
    method ScanDerivingReport(backend: ScanStep -> PhaseOutcome, reportOutcome: ReportOutcome,
                              derive: seq<ScanProgress> -> SecurityReportData)
      modifies this
      ensures State() == ScanRun(url, old(State()), backend, reportOutcome, derive(FinalProgress(backend, reportOutcome)))
      ensures requests == old(requests) + ScanRequests(url, backend)
      ensures url == old(url)
    {
      var blank := UrlIsBlank();
      if blank {
        return;
      }
      BeginScan();
      var reachedReport := WalkPhases(backend);
      if reachedReport {
        var final := ApplyReportOutcome(MarkReportRunning(scanProgress), reportOutcome);
        RequestReport(reportOutcome, derive(final));
        AppendIsAssociative(old(requests), PhaseRequests(HaltIndex(backend)), [ReportRequest]);
      }
    }

    /** `!url.trim()`: the url is empty once its surrounding whitespace is removed. */
    method UrlIsBlank() returns (blank: bool)
      ensures blank <==> IsBlank(url)
    {
      TrimIsEmptyIffBlank(url);
      blank := Trim(url) == "";
    }

    /** The report step of `runRealScan`, once every phase completed: the
        report entry runs, then settles with the report outcome; a generated
        report is shown. */
    method RequestReport(reportOutcome: ReportOutcome, report: SecurityReportData)
      requires |scanProgress| == |ScanSteps| && securityReport.None? && !showReport
      modifies this`scanProgress, this`currentStep, this`isScanning, this`securityReport, this`showReport, this`requests
      ensures State() == ScannerState(false, ApplyReportOutcome(MarkReportRunning(old(scanProgress)), reportOutcome), -1,
                                      if reportOutcome.Generated? then Some(report) else None, reportOutcome.Generated?)
      ensures requests == old(requests) + [ReportRequest]
    {
      currentStep := |ScanSteps| - 1;
      scanProgress := MarkReportRunning(scanProgress);
      requests := requests + [ReportRequest];
      scanProgress := ApplyReportOutcome(scanProgress, reportOutcome);
      if reportOutcome.Generated? {
        securityReport := Some(report);
        showReport := true;
      }
      isScanning := false;
      currentStep := -1;
    }

    /** The start of `runRealScan`: scanning, at the first step, no report,
        and every entry reset. */
    method BeginScan()
      modifies this`scanProgress, this`currentStep, this`isScanning, this`securityReport, this`showReport
      ensures State() == ScannerState(true, InitialProgress(), 0, None, false)
    {
      isScanning := true;
      currentStep := 0;
      securityReport := None;
      showReport := false;
      scanProgress := InitialProgress();
    }

    /** The phase loop of `runRealScan`: either some phase halts the scan,
        which leaves the array as that phase's answer made it and the scan
        stopped, or every phase completes and the scan goes on to the
        report. */
    method WalkPhases(backend: ScanStep -> PhaseOutcome) returns (reachedReport: bool)
      requires isScanning && scanProgress == InitialProgress()
      modifies this`scanProgress, this`currentStep, this`isScanning, this`requests
      ensures reachedReport <==> HaltIndex(backend) == ReportIndex
      ensures reachedReport ==>
        && isScanning && scanProgress == ProgressAfter(backend, ReportIndex)
        && requests == old(requests) + PhaseRequests(ReportIndex)
      ensures !reachedReport ==>
        var h := HaltIndex(backend);
        && !isScanning && scanProgress == ProgressAfter(backend, h + 1) && currentStep == h
        && requests == old(requests) + RequestsUntil(h)
    {
      var i := 0;
      while i < |ScanSteps| - 1
        invariant 0 <= i <= ReportIndex
        invariant i <= HaltIndex(backend)
        invariant isScanning
        invariant scanProgress == ProgressAfter(backend, i)
        invariant requests == old(requests) + PhaseRequests(i)
      {
        var halted := AdvancePhase(backend, i);
        if halted {
          assert RequestsUntil(i) == PhaseRequests(i + 1);
          return false;
        }
        i := i + 1;
      }
      return true;
    }

    method AdvancePhase(backend: ScanStep -> PhaseOutcome, i: nat) returns (halted: bool)
      requires i < ReportIndex && i <= HaltIndex(backend)
      requires scanProgress == ProgressAfter(backend, i)
      modifies this`scanProgress, this`currentStep, this`isScanning, this`requests
      ensures halted <==> HaltIndex(backend) == i
      ensures !halted ==> i + 1 <= HaltIndex(backend)
      ensures scanProgress == ProgressAfter(backend, i + 1)
      ensures currentStep == i && isScanning == (old(isScanning) && !halted)
      ensures requests == old(requests) + [PhaseRequest(ScanSteps[i])]
    {
      halted := AnswerPhase(backend, i);
      HaltIndexAt(backend, i);
    }

    /** One turn of the phase loop: phase `i` is requested and the array
        rewritten with its outcome; a halting outcome stops the scan. */
    method AnswerPhase(backend: ScanStep -> PhaseOutcome, i: nat) returns (halted: bool)
      requires i < ReportIndex && |scanProgress| == |ScanSteps|
      modifies this`scanProgress, this`currentStep, this`isScanning, this`requests
      ensures halted == Halts(backend(ScanSteps[i]))
      ensures scanProgress == ApplyOutcome(old(scanProgress), i, backend(ScanSteps[i]))
      ensures currentStep == i && isScanning == (old(isScanning) && !halted)
      ensures requests == old(requests) + [PhaseRequest(ScanSteps[i])]
    {
      var phase := ScanSteps[i];
      currentStep := i;
      requests := requests + [PhaseRequest(phase)];
      var outcome := backend(phase);
      match outcome {
        case Responded(r) =>
          scanProgress := ApplyResponse(scanProgress, i, r);
          if r.status == "failed" || r.status == "error" {
            isScanning := false;
            return true;
          }
        case TransportError(e) =>
          scanProgress := ApplyTransportError(scanProgress, i, e);
          isScanning := false;
          return true;
      }
      return false;
    }

    /** `resetScan`: clears the scan whatever state it is in. */
    method ResetScan()
      modifies this
      ensures State() == Cleared
      ensures url == old(url) && requests == old(requests)
    {
      scanProgress := [];
      currentStep := -1;
      isScanning := false;
      securityReport := None;
      showReport := false;
    }

    /** A click on the scan button. */
    method ClickScanButton(backend: ScanStep -> PhaseOutcome, reportOutcome: ReportOutcome, reportId: string, now: string)
      modifies this
      ensures url == old(url)
      ensures ScanButtonAction(url, old(isScanning)) == Disabled ==> State() == old(State()) && requests == old(requests)
      ensures ScanButtonAction(url, old(isScanning)) == ResetsScan ==> State() == Cleared && requests == old(requests)
      ensures ScanButtonAction(url, old(isScanning)) == StartsScan ==>
        && State() == ScanRun(url, old(State()), backend, reportOutcome,
                              ConvertToSecurityReport(url, old(scanProgress), reportId, now))
        && requests == old(requests) + ScanRequests(url, backend)
    {
      var action := ScanButtonAction(url, isScanning);
      if action == ResetsScan {
        ResetScan();
      } else if action == StartsScan {
        RunRealScan(backend, reportOutcome, reportId, now);
      }
    }
  }
}
