/** The report view (src/components/security-report.tsx): the score label,
    the severity colour and icon of each section, which recommendation
    blocks appear, the object a download writes and the name of the file it
    is written to. The translation tables, the tab state and the DOM
    plumbing of the download are not modelled; labels and blocks are named
    by datatype constructors instead of their translated texts. The calls
    of `t` are modelled only by whether `t` exists (RenderReportWithHook). */
module SecurityReport {
  import opened Wrappers
  import opened JsText
  import opened UrlScanner
  import opened UseLanguage
  import opened Types

  // ---------------------------------------------------------------------
  // Score label

  datatype ScoreRating = Excellent | Good | Fair | Poor

  /** The label under the score bar: 80 and above is excellent, 60 and
      above good, 40 and above fair, anything lower poor. */
  function ScoreRatingOf(score: int): (r: ScoreRating)
    ensures r == Excellent <==> score >= 80
    ensures r == Good <==> 60 <= score < 80
    ensures r == Fair <==> 40 <= score < 60
    ensures r == Poor <==> score < 40
  {
    if score >= 80 then Excellent
    else if score >= 60 then Good
    else if score >= 40 then Fair
    else Poor
  }

  /** The labels from worst to best. */
  function Rank(r: ScoreRating): nat {
    match r
    case Poor => 0
    case Fair => 1
    case Good => 2
    case Excellent => 3
  }

  /** A higher score never gets a worse label. */
  lemma ScoreRatingMonotone(a: int, b: int)
    requires a <= b
    ensures Rank(ScoreRatingOf(a)) <= Rank(ScoreRatingOf(b))
  {
  }

  /** For the scores a report carries: no issues is excellent, and more
      issues of any kind never improve the label. Three critical issues
      alone already drop the score to 25, which is poor. */
  lemma ReportScoreRating(c: int, w: int, v: int, c': int, w': int, v': int)
    requires 0 <= c <= c' && 0 <= w <= w' && 0 <= v <= v'
    ensures ScoreRatingOf(OverallScore(0, 0, 0)) == Excellent
    ensures Rank(ScoreRatingOf(OverallScore(c', w', v'))) <= Rank(ScoreRatingOf(OverallScore(c, w, v)))
    ensures c >= 3 ==> ScoreRatingOf(OverallScore(c, w, v)) == Poor
  {
    OverallScoreNonIncreasing(c, w, v, c', w', v');
    ScoreRatingMonotone(OverallScore(c', w', v'), OverallScore(c, w, v));
  }

  // ---------------------------------------------------------------------
  // Severity colour and icon

  /** The colour family of a badge class. */
  datatype Tone = Red | Yellow | Green | Blue

  datatype SeverityIcon = XCircleIcon | AlertTriangleIcon | CheckCircleIcon | EyeIcon

  /** `getSeverityColor`: a switch over the status string with blue as the
      default. */
  function SeverityColor(status: string): (c: Tone)
    ensures c == Red <==> status == "error"
    ensures c == Yellow <==> status == "warning"
    ensures c == Green <==> status == "success"
    ensures c == Blue <==> status !in {"error", "warning", "success"}
  {
    if status == "error" then Red
    else if status == "warning" then Yellow
    else if status == "success" then Green
    else Blue
  }

  /** `getSeverityIcon`: the same switch, with the eye as the default. */
  function SeverityIconOf(status: string): (i: SeverityIcon)
    ensures i == XCircleIcon <==> status == "error"
    ensures i == AlertTriangleIcon <==> status == "warning"
    ensures i == CheckCircleIcon <==> status == "success"
    ensures i == EyeIcon <==> status !in {"error", "warning", "success"}
  {
    if status == "error" then XCircleIcon
    else if status == "warning" then AlertTriangleIcon
    else if status == "success" then CheckCircleIcon
    else EyeIcon
  }

  /** The icon that goes with each colour. */
  function IconOfTone(t: Tone): SeverityIcon {
    match t
    case Red => XCircleIcon
    case Yellow => AlertTriangleIcon
    case Green => CheckCircleIcon
    case Blue => EyeIcon
  }

  /** The status string a section carries in the report object. */
  function StatusName(s: SectionStatus): string {
    match s
    case Success => "success"
    case Warning => "warning"
    case Error => "error"
  }

  /** The two lookups always agree, and every status a section can carry
      gets its own colour, never the neutral blue. */
  lemma SeverityLookupsAgree(status: string, a: SectionStatus, b: SectionStatus)
    ensures SeverityIconOf(status) == IconOfTone(SeverityColor(status))
    ensures SeverityColor(StatusName(a)) != Blue
    ensures SeverityColor(StatusName(a)) == SeverityColor(StatusName(b)) <==> a == b
  {
    match a
    case Success =>
    case Warning => assert StatusName(a)[0] == 'w';
    case Error => assert StatusName(a)[0] == 'e';
  }

  // ---------------------------------------------------------------------
  // Recommendations

  datatype RecommendationBlock = CriticalActions | RecommendedActions | BestPractices

  /** The blocks of the recommendations tab, in page order: critical
      actions when there are critical issues, recommended actions when
      there are warnings, and best practices always. */
  function RecommendationBlocks(summary: Summary): (bs: seq<RecommendationBlock>)
    ensures CriticalActions in bs <==> summary.criticalIssues > 0
    ensures RecommendedActions in bs <==> summary.warnings > 0
    ensures |bs| > 0 && bs[|bs| - 1] == BestPractices && BestPractices !in bs[..|bs| - 1]
    ensures |bs| == 1 + (if summary.criticalIssues > 0 then 1 else 0) + (if summary.warnings > 0 then 1 else 0)
    ensures CriticalActions in bs ==> bs[0] == CriticalActions
  {
    (if summary.criticalIssues > 0 then [CriticalActions] else [])
    + (if summary.warnings > 0 then [RecommendedActions] else [])
    + [BestPractices]
  }

  // ---------------------------------------------------------------------
  // The rendered view

  /** One card of the details tab. */
  datatype SectionCard = SectionCard(
    tone: Tone,
    icon: SeverityIcon,
    details: string,
    findings: Option<seq<string>>,
    duration: int)

  /** What the component renders: the placeholder when there is no report,
      otherwise the header, the overview, the six section cards and the
      recommendation blocks. */
  datatype ReportView =
    | NoReportPlaceholder
    | ReportPage(
        url: string,
        score: int,
        summary: Summary,
        rating: ScoreRating,
        cards: seq<SectionCard>,
        blocks: seq<RecommendationBlock>)

  /** The card of one section; its findings list is shown only when it has
      entries. */
  function SectionCardOf(s: ReportSection): (c: SectionCard)
    ensures c.tone == SeverityColor(StatusName(s.status)) && c.icon == IconOfTone(c.tone)
    ensures c.findings.Some? <==> |s.findings| > 0
    ensures c.findings.Some? ==> c.findings.value == s.findings
  {
    var status := StatusName(s.status);
    SeverityLookupsAgree(status, s.status, s.status);
    SectionCard(SeverityColor(status), SeverityIconOf(status), s.details,
                if |s.findings| > 0 then Some(s.findings) else None, s.duration)
  }

  /** The render as intended, with a translation function available. */
  function RenderReport(report: Option<SecurityReportData>): (v: ReportView)
    ensures report.None? <==> v == NoReportPlaceholder
    ensures report.Some? ==>
      && v.ReportPage?
      && v.url == report.value.url && v.score == report.value.overallScore
      && v.summary == report.value.summary
      && v.rating == ScoreRatingOf(report.value.overallScore)
      && v.blocks == RecommendationBlocks(report.value.summary)
      && |v.cards| == 6
      && forall k :: 0 <= k < 6 ==> v.cards[k] == SectionCardOf(Sections(report.value.details)[k])
  {
    match report
    case None => NoReportPlaceholder
    case Some(r) =>
      var sections := Sections(r.details);
      ReportPage(r.url, r.overallScore, r.summary, ScoreRatingOf(r.overallScore),
                 seq(6, k requires 0 <= k < 6 => SectionCardOf(sections[k])),
                 RecommendationBlocks(r.summary))
  }

  /** The render as written: the component destructures `t` from the
      language hook and calls it in both branches before anything is
      returned, so it throws a TypeError when the hook's result has no `t`,
      and otherwise renders as RenderReport does. */
  function RenderReportWithHook(hookKeys: set<string>, report: Option<SecurityReportData>): (r: Rendering<ReportView>)
    ensures r.Throws? <==> "t" !in hookKeys
    ensures r.Rendered? ==> r.view == RenderReport(report)
  {
    if "t" in hookKeys then Rendered(RenderReport(report)) else Throws("TypeError: t is not a function")
  }

  /** The language hook returns no `t`, and the scanner renders the report
      view exactly when it shows a report, so every scan that ends with a
      generated report shows a component that throws. */
  lemma ShownReportThrows(url: string, before: ScannerState, backend: ScanStep -> PhaseOutcome,
                          generated: ReportResponse, report: SecurityReportData)
    requires !IsBlank(url)
    requires HaltIndex(backend) == ReportIndex
    ensures var after := ScanRun(url, before, backend, Generated(generated), report);
      && after.showReport && after.securityReport == Some(report)
      && RenderReportWithHook(HookResultKeys, after.securityReport).Throws?
  {
    FullScan(url, before, backend, Generated(generated), report);
  }

  /** A shown report never has a neutral card, and its critical-actions
      block appears exactly when its scan card is red. */
  lemma ReportPageCards(r: SecurityReportData)
    requires r.details.scan.status == Error <==> r.summary.criticalIssues > 0
    ensures var v := RenderReport(Some(r));
      && v.ReportPage?
      && (forall k :: 0 <= k < |v.cards| ==> v.cards[k].tone != Blue)
      && (CriticalActions in v.blocks <==> v.cards[3].tone == Red)
  {
    var v := RenderReport(Some(r));
    forall k | 0 <= k < |v.cards| ensures v.cards[k].tone != Blue {
      var s := Sections(r.details)[k];
      SeverityLookupsAgree(StatusName(s.status), s.status, Error);
    }
    SeverityLookupsAgree(StatusName(r.details.scan.status), r.details.scan.status, Error);
  }

  /** Every report a scan derives meets that condition. */
  lemma ReportPageFromScan(url: string, ps: seq<ScanProgress>, id: string, timestamp: string)
    ensures var v := RenderReport(Some(ConvertToSecurityReport(url, ps, id, timestamp)));
      && v.ReportPage?
      && (forall k :: 0 <= k < |v.cards| ==> v.cards[k].tone != Blue)
      && (CriticalActions in v.blocks <==> v.cards[3].tone == Red)
  {
    SectionStatusRules(url, ps, id, timestamp);
    ReportPageCards(ConvertToSecurityReport(url, ps, id, timestamp));
  }

  // ---------------------------------------------------------------------
  // Download

  /** The object written to the downloaded file: every field of the report
      followed by `generatedAt` and `format`. */
  datatype DownloadedReport = DownloadedReport(
    id: string,
    url: string,
    timestamp: string,
    overallScore: int,
    status: ReportStatus,
    summary: Summary,
    details: Details,
    generatedAt: string,
    format: string)

  /** The report fields of a downloaded object. */
  function ReportOf(d: DownloadedReport): SecurityReportData {
    SecurityReportData(d.id, d.url, d.timestamp, d.overallScore, d.status, d.summary, d.details)
  }

  /** `{ ...report, generatedAt, format: "JSON" }`, with the clock reading
      `generatedAt` given. */
  function DownloadObject(report: SecurityReportData, generatedAt: string): (d: DownloadedReport)
    ensures ReportOf(d) == report
    ensures d.generatedAt == generatedAt && d.format == "JSON"
  {
    DownloadedReport(report.id, report.url, report.timestamp, report.overallScore, report.status,
                     report.summary, report.details, generatedAt, "JSON")
  }

  /** One character of the file name: ASCII letters and digits are kept,
      anything else becomes a dash. */
  function SanitizeChar(c: char): char {
    if IsAsciiAlnum(c) then c else '-'
  }

  /** `url.replace(/[^a-zA-Z0-9]/g, "-")`. */
  function Sanitize(s: string): (r: string)
    ensures |r| == |s|
  {
    if s == [] then [] else [SanitizeChar(s[0])] + Sanitize(s[1..])
  }

  /** The replacement works character by character: letters and digits in
      place, every other character a dash. */
  lemma {:induction false} SanitizePointwise(s: string)
    ensures forall i :: 0 <= i < |s| ==> Sanitize(s)[i] == SanitizeChar(s[i])
  {
    if s != [] {
      SanitizePointwise(s[1..]);
      forall i | 0 <= i < |s| ensures Sanitize(s)[i] == SanitizeChar(s[i]) {
        if i > 0 {
          assert Sanitize(s)[i] == Sanitize(s[1..])[i - 1];
        }
      }
    }
  }

  /** What comes out uses only letters, digits and dashes, keeps exactly
      the letters and digits of the input in place, and puts a dash
      wherever the input had anything else. */
  lemma SanitizedCharacters(s: string)
    ensures var r := Sanitize(s);
      && |r| == |s|
      && (forall i :: 0 <= i < |r| ==> IsAsciiAlnum(r[i]) || r[i] == '-')
      && (forall i :: 0 <= i < |s| ==> (IsAsciiAlnum(s[i]) ==> r[i] == s[i]) && (!IsAsciiAlnum(s[i]) ==> r[i] == '-'))
  {
    SanitizePointwise(s);
  }

  /** Sanitising a sanitised name changes nothing. */
  lemma {:induction false} SanitizeIdempotent(s: string)
    ensures Sanitize(Sanitize(s)) == Sanitize(s)
  {
    if s != [] {
      SanitizeIdempotent(s[1..]);
      var r := Sanitize(s);
      assert r[0] == SanitizeChar(s[0]) && r[1..] == Sanitize(s[1..]);
    }
  }

  const FileNamePrefix: string := "security-report-"
  const FileNameSuffix: string := ".json"

  /** The name of the downloaded file, with `Date.now()` given as `nowMillis`:
      the prefix, the sanitised url, a dash, the time and the suffix. */
  function DownloadFileName(url: string, nowMillis: int): (name: string)
    ensures |name| == |FileNamePrefix| + |url| + 1 + |IntToString(nowMillis)| + |FileNameSuffix|
    ensures name[..|FileNamePrefix|] == FileNamePrefix
    ensures name[|FileNamePrefix|..|FileNamePrefix| + |url|] == Sanitize(url)
    ensures name[|FileNamePrefix| + |url|..|name| - |FileNameSuffix|] == "-" + IntToString(nowMillis)
    ensures name[|name| - |FileNameSuffix|..] == FileNameSuffix
  {
    var stem := FileNamePrefix + Sanitize(url);
    var name := stem + ("-" + IntToString(nowMillis) + FileNameSuffix);
    assert name[..|stem|] == stem;
    name
  }
}
